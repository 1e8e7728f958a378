/** The optional value used wherever the component reads a value that may be absent:
    a `null` selection, a DOM ref that is not attached, a swipe that moves nothing. */
module Options {
  datatype Option<+T> = None | Some(value: T)
}
