/** The catalog record parsed from the remote document store (data/entities/Song.kt). */
module Entities {
  /** One song; every field defaults to the empty string in the source. */
  datatype Song = Song(artist: string, mediaID: string, title: string, songURL: string, img: string)
}
