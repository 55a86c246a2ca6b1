/** The optional value used by both demos: an absent JSON field, a missing
    table entry, a lookup that found nothing. */
module Options {

  datatype Option<+T> = None | Some(value: T)

}
