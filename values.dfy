/** Small value types shared by the model of the scanner screen. */
module Values {

  /** Kotlin's nullable reference `T?`: `None` is `null`. */
  datatype Option<+T> = None | Some(value: T)

  /** An opaque content or file location of an image (android.net.Uri). */
  datatype Uri = Uri(location: string)

  /** The part of an activity-result Intent that the screen reads: its `data` Uri, which may be null. */
  datatype Intent = Intent(data: Option<Uri>)

  /** Kotlin string interpolation of a `String?`: a null reference is rendered as the four letters "null". */
  function ShowNullable(s: Option<string>): string {
    match s
    case None => "null"
    case Some(x) => x
  }
}
