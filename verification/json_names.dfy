/** The manifest's `output_model_types` entry: a list of member names
    written as a JSON array of strings and read back with a JSON parser.
    Only the layout `json.dumps` gives such a list is modelled:
    `["ENCODER", "DECODER"]`. */
module JsonNames {
  import opened Wrappers

  /** A name `json.dumps` writes without escapes: printable ASCII other
      than the quote and the backslash. */
  predicate PlainName(n: string)
  {
    forall i :: 0 <= i < |n| ==> ' ' <= n[i] <= '~' && n[i] != '"' && n[i] != '\\'
  }

  function Quote(n: string): string
  {
    "\"" + n + "\""
  }

  /** The quoted names separated by `", "`. */
  function JoinQuoted(names: seq<string>): string
  {
    if |names| == 0 then ""
    else if |names| == 1 then Quote(names[0])
    else Quote(names[0]) + ", " + JoinQuoted(names[1..])
  }

  /** `json.dumps(names)` for a list of plain names. */
  function EncodeNameList(names: seq<string>): string
  {
    "[" + JoinQuoted(names) + "]"
  }

  /** The position of the first quote at or after `i`, or `|s|` if none. */
  function FindQuote(s: string, i: nat): (j: nat)
    requires i <= |s|
    ensures i <= j <= |s|
    ensures forall k :: i <= k < j ==> s[k] != '"'
    ensures j < |s| ==> s[j] == '"'
    decreases |s| - i
  {
    if i == |s| || s[i] == '"' then i else FindQuote(s, i + 1)
  }

  /** Reads `"a", "b", ...` back into names. */
  function DecodeItems(s: string): (r: Option<seq<string>>)
    ensures r.Some? ==> r.value != []
    decreases |s|, 1
  {
    if |s| < 2 || s[0] != '"' then None
    else
      var j := FindQuote(s, 1);
      if j == |s| then None else DecodeAfterItem(s[1..j], s[j + 1..])
  }

  /** Continues after one quoted item: the list ends, or `", "` and further
      items follow. Escapes are refused. */
  function DecodeAfterItem(item: string, rest: string): (r: Option<seq<string>>)
    ensures r.Some? ==> r.value != [] && r.value[0] == item
    decreases |rest|, 0
  {
    if '\\' in item then None
    else if rest == "" then Some([item])
    else if |rest| >= 2 && rest[..2] == ", " then
      match DecodeItems(rest[2..])
      case None => None
      case Some(items) => Some([item] + items)
    else None
  }

  /** `json.loads` on a JSON array of strings in `json.dumps` layout. */
  function DecodeNameList(s: string): (r: Option<seq<string>>)
  {
    if |s| < 2 || s[0] != '[' || s[|s| - 1] != ']' then None
    else
      var inner := s[1..|s| - 1];
      if inner == "" then Some([]) else DecodeItems(inner)
  }

  /** A quoted plain name is read as one item, whatever follows it. */
  lemma DecodeQuoted(n: string, tail: string)
    requires PlainName(n)
    ensures DecodeItems(Quote(n) + tail) == DecodeAfterItem(n, tail)
  {
    var s := Quote(n) + tail;
    var j := FindQuote(s, 1);
    assert s[1 + |n|] == '"';
    assert forall k :: 1 <= k < 1 + |n| ==> s[k] == n[k - 1];
    assert s[1..j] == n;
    assert s[j + 1..] == tail;
  }

  /** One plain item alone, or in front of a further list. */
  lemma DecodeOneItem(n: string)
    requires PlainName(n)
    ensures DecodeItems(Quote(n)) == Some([n])
  {
    DecodeQuoted(n, "");
    assert Quote(n) + "" == Quote(n);
  }

  lemma DecodeConsItem(n: string, rest: string)
    requires PlainName(n)
    requires DecodeItems(rest).Some?
    ensures DecodeItems(Quote(n) + ", " + rest) == Some([n] + DecodeItems(rest).value)
  {
    var tail := ", " + rest;
    assert Quote(n) + ", " + rest == Quote(n) + tail;
    DecodeQuoted(n, tail);
    assert tail[..2] == ", " && tail[2..] == rest;
  }

  lemma {:induction false} DecodeItemsOfJoin(names: seq<string>)
    requires names != []
    requires forall i :: 0 <= i < |names| ==> PlainName(names[i])
    ensures DecodeItems(JoinQuoted(names)) == Some(names)
    decreases |names|
  {
    assert PlainName(names[0]);
    if |names| == 1 {
      DecodeOneItem(names[0]);
      assert names == [names[0]];
    } else {
      DecodeItemsOfJoin(names[1..]);
      DecodeConsItem(names[0], JoinQuoted(names[1..]));
      assert [names[0]] + names[1..] == names;
    }
  }

  /** A decoded item list starts with a quoted item, followed either by
      nothing or by `", "` and a further decodable list. */
  lemma DecodeItemsSplit(s: string) returns (item: string, rest: string)
    requires DecodeItems(s).Some?
    ensures s == Quote(item) + rest
    ensures rest == "" ==> DecodeItems(s).value == [item]
    ensures rest != "" ==> && |rest| >= 2 && rest == ", " + rest[2..]
                           && DecodeItems(rest[2..]).Some?
                           && DecodeItems(s).value == [item] + DecodeItems(rest[2..]).value
    ensures |rest| < |s|
  {
    var j := FindQuote(s, 1);
    item, rest := s[1..j], s[j + 1..];
    assert DecodeItems(s) == DecodeAfterItem(item, rest);
    assert s == [s[0]] + s[1..j] + [s[j]] + s[j + 1..];
    if rest != "" {
      assert rest == rest[..2] + rest[2..];
    }
  }

  lemma {:induction false} JoinOfDecodeItems(s: string)
    requires DecodeItems(s).Some?
    ensures JoinQuoted(DecodeItems(s).value) == s
    decreases |s|
  {
    var item, rest := DecodeItemsSplit(s);
    if rest != "" {
      JoinOfDecodeItems(rest[2..]);
      var items := DecodeItems(rest[2..]).value;
      assert ([item] + items)[1..] == items;
    }
  }

  /** Reading back a written list of plain names gives the same names. */
  lemma {:induction false} DecodeEncodeNameList(names: seq<string>)
    requires forall i :: 0 <= i < |names| ==> PlainName(names[i])
    ensures DecodeNameList(EncodeNameList(names)) == Some(names)
  {
    var s := EncodeNameList(names);
    assert s[1..|s| - 1] == JoinQuoted(names);
    if names != [] {
      DecodeItemsOfJoin(names);
      assert JoinQuoted(names) != "";
    }
  }

  /** Whatever the reader accepts is exactly what the writer produces for
      the names it returns. */
  lemma {:induction false} EncodeDecodeNameList(s: string)
    requires DecodeNameList(s).Some?
    ensures EncodeNameList(DecodeNameList(s).value) == s
  {
    var inner := s[1..|s| - 1];
    assert s == "[" + inner + "]";
    if inner != "" {
      JoinOfDecodeItems(inner);
    }
  }
}
