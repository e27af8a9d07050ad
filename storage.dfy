/** The browser's `localStorage`: one string-keyed map shared by every store, which may be
    unusable (disabled storage makes both `getItem` and `setItem` throw), and the JSON text
    format of a stored collection, kept abstract as a pair of functions. */
module Storage {
  import opened Wrappers

  class LocalStorage {
    var data: map<string, string>
    /** When false, every access throws. */
    const available: bool

    constructor (initial: map<string, string>, available: bool)
      ensures data == initial && this.available == available
    {
      data := initial;
      this.available := available;
    }

    /** `getItem(key)`: the stored text, `None` for a missing key, `Failure` when it throws. */
    function GetItem(key: string): (r: Result<Option<string>, string>)
      reads this
      ensures r.Failure? <==> !available
      ensures r.Success? ==> (r.value.Some? <==> key in data)
      ensures r.Success? && r.value.Some? ==> r.value.value == data[key]
    {
      if !available then Failure("storage unavailable")
      else if key in data then Success(Some(data[key]))
      else Success(None)
    }

    /** `setItem(key, value)`; a throwing write leaves the map as it was. */
    method SetItem(key: string, value: string)
      modifies this
      ensures data == Written(available, old(data), key, value)
    {
      if available {
        data := data[key := value];
      }
    }
  }

  /** The map after a write attempt. */
  function Written(available: bool, data: map<string, string>, key: string, value: string): map<string, string> {
    if available then data[key := value] else data
  }

  /** A second write under the same key overwrites the first. */
  lemma WrittenTwice(available: bool, data: map<string, string>, key: string, first: string, second: string)
    ensures Written(available, Written(available, data, key, first), key, second) == Written(available, data, key, second)
  {
    if available {
      assert data[key := first][key := second] == data[key := second];
    }
  }

  /** `JSON.stringify` and `JSON.parse` for a list of records; `decode` answers `None` where
      parsing throws or does not yield a list. */
  datatype Codec<!T> = Codec(encode: seq<T> -> string, decode: string -> Option<seq<T>>)

  /** What JSON gives the stores: the text of a list is never empty and parses back to it. */
  ghost predicate Faithful<T(!new)>(c: Codec<T>) {
    forall xs: seq<T> :: c.encode(xs) != "" && c.decode(c.encode(xs)) == Some(xs)
  }

  /** The load step shared by the collection stores: nothing stored, an empty string, a read
      that throws or text that does not parse all give the empty list. */
  function ReadCollection<T>(read: Result<Option<string>, string>, c: Codec<T>): (r: seq<T>)
    ensures read.Failure? || read.value.None? ==> r == []
  {
    match read
    case Failure(_) => []
    case Success(None) => []
    case Success(Some(text)) =>
      if text == "" then []
      else match c.decode(text)
        case None => []
        case Some(xs) => xs
  }

  /** Reading back what was written gives the written list. */
  lemma ReadWritten<T(!new)>(c: Codec<T>, xs: seq<T>)
    requires Faithful(c)
    ensures ReadCollection(Success(Some(c.encode(xs))), c) == xs
  {
  }
}
