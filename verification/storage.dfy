/** AsyncStorage as the app uses it: each key holds the JSON text of one value. A key is a
    `StoredValue<T>` object whose content is a `Slot<T>`: nothing stored, text that does not
    parse, or a value written by `JSON.stringify` and read back by `JSON.parse` unchanged. */
module Storage {
  import opened Common

  /** What `JSON.parse` throws on text it cannot read. */
  datatype ParseError = SyntaxError

  class StoredValue<T> {
    const key: string
    var content: Slot<T>

    constructor (key: string, initial: Slot<T>)
      ensures this.key == key && content == initial
    {
      this.key := key;
      content := initial;
    }

    /** `setItem(key, JSON.stringify(value))`. */
    method SetItem(value: T)
      modifies this
      ensures content == Saved(value)
    {
      content := Saved(value);
    }

    /** `removeItem(key)`. */
    method RemoveItem()
      modifies this
      ensures content == Empty
    {
      content := Empty;
    }
  }

  /** `saved ? JSON.parse(saved) : null` with no handler: unreadable text throws. */
  function ParseOrThrow<T>(s: Slot<T>): (r: Result<Option<T>, ParseError>)
    ensures r.Err? <==> s.Unreadable?
    ensures r == Ok(None) <==> s.Empty?
    ensures s.Saved? <==> r.Ok? && r.value.Some?
    ensures s.Saved? ==> r == Ok(Some(s.value))
  {
    match s
    case Empty => Ok(None)
    case Unreadable => Err(SyntaxError)
    case Saved(v) => Ok(Some(v))
  }

  /** The same inside `try { … } catch { return null }`: unreadable text reads as nothing. */
  function ParseOrNull<T>(s: Slot<T>): (r: Option<T>)
    ensures r.None? <==> !s.Saved?
    ensures s.Saved? ==> r == Some(s.value)
  {
    match s
    case Saved(v) => Some(v)
    case _ => None
  }
}
