/** Small types shared by every reducer of the store. */
module Common {

  /** A value that may be absent: JavaScript's `undefined` / `null`
      alternative, as in `selectedSize?: string` or `user: User | null`. */
  datatype Option<T> = None | Some(value: T)

  /** The `status` field the product and order slices carry. No reducer
      modelled here changes it. */
  datatype LoadStatus = Idle | Loading | Succeeded | Failed
}
