/** The optional value used across the model (`undefined` / `null` in the site's TypeScript). */
module Options {

  datatype Option<+T> = None | Some(value: T)
}
