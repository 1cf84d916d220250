/** `APIClientHelper`: turning the session store's loosely typed header
    dictionary into string header fields, and turning an encodable value
    into body parameters. */
module APIClientHelper {
  import opened Wrappers
  import opened Http

  /** A value of the session store's `[String: Any?]` dictionary:
      `nil`; a single value, held by its string interpolation `"\(value)"`;
      or a collection `[Any?]`, held by the interpolations of its non-nil
      elements and `None` for its nil ones. */
  datatype HeaderValue =
    | Nil
    | Scalar(rendering: string)
    | Collection(elements: seq<Option<string>>)

  /** The header-list separator used when a collection becomes one field value. */
  const ListSeparator := ','

  /** The non-nil elements of a collection, in their original order
      (`filter { $0 != nil }` followed by the forced unwrap in `map`). */
  function NonNil(elements: seq<Option<string>>): (present: seq<string>)
    ensures |present| <= |elements|
    ensures forall i :: 0 <= i < |present| ==> Some(present[i]) in elements
  {
    if elements == [] then []
    else
      var rest := NonNil(elements[1..]);
      assert forall i :: 0 <= i < |rest| ==> Some(rest[i]) in elements by {
        forall i | 0 <= i < |rest| ensures Some(rest[i]) in elements {
          assert Some(rest[i]) in elements[1..];
        }
      }
      match elements[0]
      case None => rest
      case Some(text) => [text] + rest
  }

  /** Filtering distributes over concatenation, so the order of the
      surviving elements is the order they had in the collection. */
  lemma {:induction false} NonNilAppend(xs: seq<Option<string>>, ys: seq<Option<string>>)
    ensures NonNil(xs + ys) == NonNil(xs) + NonNil(ys)
    decreases |xs|
  {
    if xs != [] {
      assert (xs + ys)[1..] == xs[1..] + ys;
      NonNilAppend(xs[1..], ys);
    } else {
      assert xs + ys == ys;
    }
  }

  /** No non-nil element is lost: every one of them survives the filter. */
  lemma {:induction false} NonNilKeepsEvery(elements: seq<Option<string>>, text: string)
    requires Some(text) in elements
    ensures text in NonNil(elements)
    decreases |elements|
  {
    if elements[0] != Some(text) {
      assert Some(text) in elements[1..];
      NonNilKeepsEvery(elements[1..], text);
    }
  }

  /** A nil element contributes nothing, wherever it stands. */
  lemma NilContributesNothing(xs: seq<Option<string>>, ys: seq<Option<string>>)
    ensures NonNil(xs + [None] + ys) == NonNil(xs + ys)
  {
    NonNilAppend(xs + [None], ys);
    NonNilAppend(xs, [None]);
    NonNilAppend(xs, ys);
    assert NonNil([None]) == [];
  }

  /** A collection whose elements are all nil (or that is empty) has no
      non-nil elements. */
  lemma {:induction false} AllNilHasNoneLeft(elements: seq<Option<string>>)
    requires forall i :: 0 <= i < |elements| ==> elements[i].None?
    ensures NonNil(elements) == []
    decreases |elements|
  {
    if elements != [] {
      AllNilHasNoneLeft(elements[1..]);
    }
  }

  /** `joined(separator:)`: the parts with one separator between each
      neighbouring pair, none before the first or after the last. */
  function JoinedBy(parts: seq<string>, separator: char): (joined: string)
    ensures |joined| == TotalLength(parts) + (if |parts| == 0 then 0 else |parts| - 1)
    ensures |parts| >= 1 ==> parts[0] <= joined
  {
    if |parts| == 0 then ""
    else if |parts| == 1 then parts[0]
    else parts[0] + [separator] + JoinedBy(parts[1..], separator)
  }

  /** The summed length of the parts. */
  function TotalLength(parts: seq<string>): nat
  {
    if parts == [] then 0 else |parts[0]| + TotalLength(parts[1..])
  }

  /** The fields of a string between its separators; the partner of
      `JoinedBy`, used to state what a joined value still holds. */
  function SplitOn(s: string, separator: char): (fields: seq<string>)
    ensures |fields| >= 1
    decreases |s|
  {
    if s == [] then [""]
    else
      var rest := SplitOn(s[1..], separator);
      if s[0] == separator then [""] + rest
      else [[s[0]] + rest[0]] + rest[1..]
  }

  lemma {:induction false} SplitSingleField(field: string, separator: char)
    requires separator !in field
    ensures SplitOn(field, separator) == [field]
    decreases |field|
  {
    if field != [] {
      SplitSingleField(field[1..], separator);
      assert [field[0]] + field[1..] == field;
    }
  }

  lemma {:induction false} SplitAfterField(field: string, tail: string, separator: char)
    requires separator !in field
    ensures SplitOn(field + [separator] + tail, separator) == [field] + SplitOn(tail, separator)
    decreases |field|
  {
    var s := field + [separator] + tail;
    if field == [] {
      assert s[1..] == tail;
    } else {
      assert s[1..] == field[1..] + [separator] + tail;
      SplitAfterField(field[1..], tail, separator);
      assert [field[0]] + field[1..] == field;
    }
  }

  /** Joining loses nothing: when no part contains the separator, splitting
      the joined string gives back the parts, in their order. */
  lemma {:induction false} SplitJoined(parts: seq<string>, separator: char)
    requires |parts| >= 1
    requires forall i :: 0 <= i < |parts| ==> separator !in parts[i]
    ensures SplitOn(JoinedBy(parts, separator), separator) == parts
    decreases |parts|
  {
    if |parts| == 1 {
      SplitSingleField(parts[0], separator);
    } else {
      SplitJoined(parts[1..], separator);
      SplitAfterField(parts[0], JoinedBy(parts[1..], separator), separator);
      assert [parts[0]] + parts[1..] == parts;
    }
  }

  /** The field value one dictionary entry contributes, or `None` when the
      entry is dropped. */
  function Rendered(value: HeaderValue): (rendered: Option<string>)
    ensures rendered.None? <==> value.Nil?
    ensures value.Scalar? ==> rendered == Some(value.rendering)
    ensures value.Collection? && (forall i :: 0 <= i < |value.elements| ==> value.elements[i].None?) ==>
      rendered == Some("")
  {
    match value
    case Nil => None
    case Scalar(text) => Some(text)
    case Collection(elements) => Some(JoinedBy(NonNil(elements), ListSeparator))
  }

  /** What `rejectNilHeaders` returns for `source`: the entries that are not
      nil, each rendered as one string. */
  function Sanitized(source: map<string, HeaderValue>): (fields: map<string, string>)
    ensures fields.Keys <= source.Keys
    ensures forall key :: key in source ==> (key in fields <==> !source[key].Nil?)
    ensures forall key :: key in source && source[key].Scalar? ==>
      key in fields && fields[key] == source[key].rendering
    ensures forall key :: key in source && source[key].Collection? ==>
      key in fields && fields[key] == JoinedBy(NonNil(source[key].elements), ListSeparator)
  {
    map key | key in source && !source[key].Nil? :: Rendered(source[key]).value
  }

  /** A collection of nil elements (or none at all) is kept, with the empty
      string as its value. */
  lemma EmptyCollectionKept(source: map<string, HeaderValue>, key: string)
    requires key in source && source[key].Collection?
    requires forall i :: 0 <= i < |source[key].elements| ==> source[key].elements[i].None?
    ensures key in Sanitized(source) && Sanitized(source)[key] == ""
  {
    AllNilHasNoneLeft(source[key].elements);
  }

  /** `rejectNilHeaders`: `reduce(into:)` over the dictionary, writing one
      result entry per non-nil source entry. Dictionary order is unspecified,
      so each step takes any entry not yet visited. */
  method RejectNilHeaders(source: map<string, HeaderValue>) returns (result: map<string, string>)
    ensures result == Sanitized(source)
  {
    result := map[];
    var pending := source.Keys;
    while pending != {}
      invariant pending <= source.Keys
      invariant result == Sanitized(source - pending)
      decreases pending
    {
      var key :| key in pending;
      ghost var before := source - pending;
      pending := pending - {key};
      assert source - pending == before[key := source[key]];
      match source[key] {
        case Collection(elements) =>
          result := result[key := JoinedBy(NonNil(elements), ListSeparator)];
        case Scalar(text) =>
          result := result[key := text];
        case Nil =>
      }
    }
    assert source - pending == source;
  }

  /** `encodingParameters(forEncodableObject:)`: the object encoded to JSON
      and read back as a dictionary; the empty dictionary when there is no
      object, when encoding throws, or when the JSON is not a dictionary.
      `encode` stands for `JSONEncoder.encode` (`None` when it throws) and
      `asDictionary` for `JSONSerialization.jsonObject(with:) as? [String: Any]`. */
  function EncodingParameters<T>(encodableObject: Option<T>, encode: T -> Option<Bytes>,
                                 asDictionary: Bytes -> Option<Params>): (params: Params)
    ensures encodableObject.None? ==> params == map[]
    ensures encodableObject.Some? && encode(encodableObject.value).None? ==> params == map[]
    ensures params != map[] ==>
      encodableObject.Some? && encode(encodableObject.value).Some? &&
      asDictionary(encode(encodableObject.value).value) == Some(params)
    ensures encodableObject.Some? && encode(encodableObject.value).Some? &&
            asDictionary(encode(encodableObject.value).value).Some? ==>
      params == asDictionary(encode(encodableObject.value).value).value
  {
    match encodableObject
    case None => map[]
    case Some(obj) =>
      match encode(obj)
      case None => map[]
      case Some(jsonData) =>
        match asDictionary(jsonData)
        case None => map[]
        case Some(dictionary) => dictionary
  }
}
