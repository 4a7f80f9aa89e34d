/** The values shared by the layout's font handling: the entries of the
    dynamically imported font catalog, and an Option type standing for the
    TypeScript `T | null` slots. */
module Fonts {

  /** `null` (None) or a value (Some). */
  datatype Option<+T> = None | Some(value: T)

  /** One catalog entry (the `FontObject` type): the font's display name and
      the CSS class name of its loaded face (`font.className`). */
  datatype FontObject = FontObject(name: string, className: string)

  /** The catalog exported by the fonts data module: an ordered list in which
      names need not be unique. */
  type Catalog = seq<FontObject>
}
