/**
  Query strings as the pixel builds them: each entry is the URL-encoded key,
  `=`, and the URL-encoded value, and the entries are joined by `&` in
  order.  The URL encoder is a parameter; the round trip needs only that
  its output never holds `&` or `=` and that a decoder undoes it.
 */
module QueryString {
  import opened Text

  /** One `key=value` entry, both halves encoded. */
  function Entry(encode: string -> string, key: string, value: string): string {
    encode(key) + "=" + encode(value)
  }

  /** The encoded entries, in the order of `pairs`. */
  function Entries(encode: string -> string, pairs: seq<(string, string)>): (parts: seq<string>)
    ensures |parts| == |pairs|
    ensures forall i :: 0 <= i < |pairs| ==> parts[i] == Entry(encode, pairs[i].0, pairs[i].1)
  {
    if pairs == [] then [] else [Entry(encode, pairs[0].0, pairs[0].1)] + Entries(encode, pairs[1..])
  }

  /** `entries.joinToString("&") { (key, value) -> "${encode(key)}=${encode(value)}" }`. */
  function Query(encode: string -> string, pairs: seq<(string, string)>): string {
    Join(Entries(encode, pairs), "&")
  }

  /** The encoder never produces the two delimiters of a query. */
  ghost predicate EscapesDelimiters(encode: string -> string) {
    forall s :: '&' !in encode(s) && '=' !in encode(s)
  }

  /** Reading one entry back: split at the first `=`, decode both halves. */
  function ParseEntry(decode: string -> string, part: string): (kv: (string, string))
    ensures '=' !in part ==> kv == (decode(part), decode(""))
  {
    var halves := SplitFirst(part, '=');
    if |halves| == 2 then (decode(halves[0]), decode(halves[1])) else (decode(halves[0]), decode(""))
  }

  function ParseEntries(decode: string -> string, parts: seq<string>): (pairs: seq<(string, string)>)
    ensures |pairs| == |parts|
    ensures forall i :: 0 <= i < |parts| ==> pairs[i] == ParseEntry(decode, parts[i])
  {
    if parts == [] then [] else [ParseEntry(decode, parts[0])] + ParseEntries(decode, parts[1..])
  }

  /** Reading a query back: split on `&`, then read each entry. */
  function ParseQuery(decode: string -> string, query: string): seq<(string, string)> {
    ParseEntries(decode, Split(query, '&'))
  }

  lemma EntryReadsBack(encode: string -> string, decode: string -> string, key: string, value: string)
    requires EscapesDelimiters(encode)
    requires forall s :: decode(encode(s)) == s
    ensures '&' !in Entry(encode, key, value)
    ensures ParseEntry(decode, Entry(encode, key, value)) == (key, value)
  {
    var e := Entry(encode, key, value);
    assert '=' !in encode(key) && '&' !in encode(key) && '&' !in encode(value);
    assert e == encode(key) + ['='] + encode(value);
    var halves := SplitFirst(e, '=');
    assert |halves| == 2;
    assert halves[0] + "=" + halves[1] == encode(key) + "=" + encode(value);
    assert halves[0] == encode(key);
    assert halves[1] == encode(value);
  }

  /**
    With an encoder that hides the delimiters and a decoder that undoes it,
    reading a query back gives every key and value, in order.
   */
  lemma QueryRoundTrip(encode: string -> string, decode: string -> string, pairs: seq<(string, string)>)
    requires EscapesDelimiters(encode)
    requires forall s :: decode(encode(s)) == s
    requires |pairs| >= 1
    ensures ParseQuery(decode, Query(encode, pairs)) == pairs
  {
    var parts := Entries(encode, pairs);
    forall i | 0 <= i < |parts| ensures '&' !in parts[i] && ParseEntry(decode, parts[i]) == pairs[i] {
      EntryReadsBack(encode, decode, pairs[i].0, pairs[i].1);
    }
    SplitJoin(parts, '&');
  }

  /** A list of ids as the pixel sends it: comma-joined, in list order. */
  function CommaList(ids: seq<string>): string {
    Join(ids, ",")
  }

  /** Ids free of commas come back from the comma list in order. */
  lemma CommaListRoundTrip(ids: seq<string>)
    requires |ids| >= 1
    requires forall i :: 0 <= i < |ids| ==> ',' !in ids[i]
    ensures Split(CommaList(ids), ',') == ids
  {
    SplitJoin(ids, ',');
  }

  /** An empty list and a list holding one empty id give the same comma list. */
  lemma EmptyListAmbiguous()
    ensures CommaList([]) == CommaList([""]) == ""
  {
  }
}
