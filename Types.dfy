/** The portfolio's value types: the optional value used for "no project
    under edit" and for a parse that fails, and the Project record. */
module Types {

  /** A value that may be absent (a `null` project under edit, a parse
      that throws, an upload that is refused). */
  datatype Option<+T> = None | Some(value: T) {

    predicate IsFailure() {
      None?
    }

    function PropagateFailure<U>(): Option<U>
      requires None?
    {
      None
    }

    function Extract(): T
      requires Some?
    {
      value
    }
  }

  /** A portfolio entry. An empty `id` marks an entry that has not been
      saved yet; `images` is the gallery in display order. */
  datatype Project = Project(
    id: string,
    title: string,
    category: string,
    coverImage: string,
    images: seq<string>,
    description: string,
    year: string
  )
}
