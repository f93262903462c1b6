/** The JavaScript value slots the loading/value cell stores. */
module Values {

  /** A slot that is either absent (`undefined`) or holds a value. */
  datatype Option<+A> = None | Some(value: A)

  /** A JavaScript value of an untyped slot: `undefined`, `null`, or a payload.
      The cell's `value` field and the default a producer returns are of this kind,
      because the source tells `undefined` and `null` apart in one place and not in another. */
  datatype Maybe<+A> = Undefined | Null | Defined(payload: A)
  {
    /** `x === undefined || x === null` */
    predicate Nullish() {
      Undefined? || Null?
    }
  }
}
