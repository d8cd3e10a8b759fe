/** The optional value used wherever the handler reads something that may be absent:
    a missing JSON field, a null title, a bucket search that found nothing. */
module Options {

  datatype Option<+T> = None | Some(value: T)
}
