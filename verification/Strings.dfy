// The string functions as the use cases see them. The protocol results hold for any
// such functions; GoStrings supplies the ones the service uses.
module Strings {
  import Text
  import Slug

  datatype Ops = Ops(trim: string -> string, slug: string -> string, normal: string -> string)

  function GoStrings(t: Text.Table): Ops {
    Ops(s => Text.TrimSpace(t, s), s => Slug.Slugify(t, s), s => Text.Normalize(t, s))
  }
}
