// The records of types.ts, as Dafny values.

module Types {

  datatype Option<T> = None | Some(value: T) {
    /** The wrapped value, or `default` when there is none. */
    function GetOr(default: T): T {
      match this
      case Some(v) => v
      case None => default
    }
  }

  /** A catalogue entry. `purchasePrice` and `price` are independent: nothing
      orders them, so a part may sell below its cost. `imageUrl` is the only
      optional field. */
  datatype Part = Part(
    id: string,
    name: string,
    purchasePrice: real,
    price: real,
    category: string,
    unit: string,
    imageUrl: Option<string>)

  /** One line of a bill of materials. The quantity carries no sign constraint:
      the editor lets zero and negative values exist while a user types. */
  datatype ProjectItem = ProjectItem(partId: string, quantity: real)

  /** A saved budget; `items` keeps insertion order, `createdAt` is a time stamp
      in milliseconds. */
  datatype Project = Project(id: string, name: string, items: seq<ProjectItem>, createdAt: int)

  /** The four screens of the application. */
  datatype View = Dashboard | Catalog | ProjectBuilder | AiGen
}
