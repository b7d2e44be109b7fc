/** Option and Result values for the collaborators that can fail (URL parsing,
    HTTP retrieval) and for the crawl entry point, which returns either a site
    map or an error. */
module Wrappers {

  datatype Option<+T> = None | Some(value: T)

  datatype Result<+R, +E> = Success(value: R) | Failure(error: E)
}
