/** Entities shared by the stream, category and profile components: the
    JSON-backed domain objects that display items wrap, and Option. */
module Models {

  datatype Option<+T> = None | Some(value: T) {
    /** The wrapped value, or `default` when absent (Swift's `??`). */
    function GetOr(default: T): T {
      match this
      case Some(v) => v
      case None => default
    }
  }

  datatype Category = Category(slug: string, endpoint: string)

  datatype Post = Post(id: string)

  /** A user; `formattedShortBio` is the HTML of the profile bio, if any. */
  datatype User = User(username: string, formattedShortBio: Option<string>)

  /** The JSON-backed object a display item wraps (`JSONAble`). */
  datatype Jsonable =
    | CategoryObject(category: Category)
    | PostObject(post: Post)
    | UserObject(user: User)

  /** The stream a generator loads (`StreamKind`); its cases are not modelled. */
  datatype StreamKind = StreamKind(name: string)
}
