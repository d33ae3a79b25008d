/** Records shared by the store and the pages (types.ts), plus the optional
    and failure wrappers the model uses for `undefined` and thrown errors. */
module Types {

  /** `undefined` / `null` in the source. */
  datatype Option<+T> = None | Some(value: T) {
    function GetOr(default: T): T {
      match this
      case Some(v) => v
      case None => default
    }
  }

  /** A JavaScript truthy string: present and not empty. */
  predicate Truthy(s: Option<string>) { s.Some? && s.value != "" }

  /** A value or the message of the error the source throws. */
  datatype Result<+T> = Success(value: T) | Failure(message: string)

  /** A comment embedded in its story. `createdAt` is a timestamp in
      milliseconds; the source keeps an ISO string of the same instant. */
  datatype Comment = Comment(id: string, user: string, text: string, createdAt: int)

  /** A stored story. `downloads` may be missing in records written before
      the counter existed; `category` is set only by category management and
      is absent on freshly uploaded stories. */
  datatype Story = Story(
    id: string,
    title: string,
    description: string,
    author: string,
    coverImage: string,
    pdfUrl: string,
    likes: nat,
    dislikes: nat,
    views: nat,
    downloads: Option<nat>,
    createdAt: int,
    comments: seq<Comment>,
    category: Option<string>)

  /** The session identity persisted by the app shell. */
  datatype User = User(name: string, email: string, avatar: string)
}
