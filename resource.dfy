/** The loading/success/error wrapper the view model posts to the UI (other/Resource.kt). */
module Resources {
  import opened Wrappers

  /** The three statuses a resource can carry. */
  datatype Status = SUCCESS | ERROR | LOADING

  /** `Resource(status, data, message)`: data and message are nullable in the source. */
  datatype Resource<T> = Resource(status: Status, data: Option<T>, message: Option<string>)

  /** `Resource.success(data)`: a successful resource without a message. */
  function Success<T>(data: Option<T>): (r: Resource<T>)
    ensures r.status == SUCCESS && r.data == data && r.message == None
  {
    Resource(SUCCESS, data, None)
  }

  /** `Resource.error(message, data)`: the message is mandatory, the data optional. */
  function Error<T>(message: string, data: Option<T>): (r: Resource<T>)
    ensures r.status == ERROR && r.data == data && r.message == Some(message)
  {
    Resource(ERROR, data, Some(message))
  }

  /** `Resource.loading(data)`: a loading resource without a message. */
  function Loading<T>(data: Option<T>): (r: Resource<T>)
    ensures r.status == LOADING && r.data == data && r.message == None
  {
    Resource(LOADING, data, None)
  }

  /** Which factory built a resource can be read off its status, and the data
      each factory was given can be read back unchanged. */
  lemma FactoriesAreDistinguishable<T>(d: Option<T>, e: Option<T>, m: string)
    ensures Success(d) != Error(m, e) && Success(d) != Loading(e) && Error(m, d) != Loading(e)
    ensures Success(d).data == d && Error(m, d).data == d && Loading(d).data == d
    ensures Success(d) == Success(e) ==> d == e
    ensures Loading(d) == Loading(e) ==> d == e
  {
  }

  /** A resource whose message is absent is exactly what `success` or `loading` build from its
      data, and one whose status is ERROR with a message is exactly what `error` builds. */
  lemma EveryFactoryShapeIsReachable<T>(r: Resource<T>)
    ensures r.status == SUCCESS && r.message == None ==> r == Success(r.data)
    ensures r.status == LOADING && r.message == None ==> r == Loading(r.data)
    ensures r.status == ERROR && r.message.Some? ==> r == Error(r.message.value, r.data)
  {
  }

  /** `Status` has exactly three values. */
  lemma StatusHasThreeValues(s: Status)
    ensures s == SUCCESS || s == ERROR || s == LOADING
    ensures |{SUCCESS, ERROR, LOADING}| == 3
  {
  }
}
