/**
  The cookie-header parser used to find the visitor id: the header is cut
  at every `;`, each piece at its first `=`, both halves are trimmed, a
  piece without `=` has the empty value, and a later cookie with the same
  name overrides an earlier one.
 */
module Cookies {
  import opened Wrappers
  import opened Text

  /** The name of the cookie that holds the visitor id. */
  const UserCookie: string := "_alby_user"

  /** `s` is `a`, then `sep`, then `b`, with no `sep` in `a`: `sep` first occurs at `|a|`. */
  lemma {:induction false} FirstSeparator(a: string, b: string, sep: char)
    requires sep !in a
    ensures IndexOf(a + [sep] + b, sep) == Some(|a|)
  {
    if a != [] {
      var s := a + [sep] + b;
      assert s[1..] == a[1..] + [sep] + b;
      FirstSeparator(a[1..], b, sep);
    }
  }

  /**
    One cookie, `name=value`: the name is the trimmed text before the first
    `=`, the value the trimmed text after it, or empty when there is no `=`.
   */
  function CookiePair(cookie: string): (kv: (string, string))
    ensures IndexOf(cookie, '=').None? ==> kv == (Trim(cookie), "")
    ensures IndexOf(cookie, '=').Some? ==>
      var i := IndexOf(cookie, '=').value;
      kv == (Trim(cookie[..i]), Trim(cookie[i + 1..]))
  {
    var parts := SplitFirst(cookie, '=');
    assert |parts| == 2 ==> parts[0] + "=" + parts[1] == cookie;
    if |parts| == 2 then
      FirstSeparator(parts[0], parts[1], '=');
      (Trim(parts[0]), Trim(parts[1]))
    else (Trim(parts[0]), "")
  }

  /**
    A cookie written as `name=value`, with a trimmed name free of `=`, reads
    back as that name and the trimmed value, whatever the value contains.
   */
  lemma CookieRoundTrip(name: string, value: string)
    requires '=' !in name && Trim(name) == name
    ensures CookiePair(name + "=" + value) == (name, Trim(value))
  {
    FirstSeparator(name, value, '=');
    var s := name + "=" + value;
    assert s == name + ['='] + value;
    assert s[..|name|] == name && s[|name| + 1..] == value;
  }

  /** The names among `pairs`. */
  function Names(pairs: seq<(string, string)>): set<string> {
    set i | 0 <= i < |pairs| :: pairs[i].0
  }

  /** The entry at `i` is the last one with its name. */
  predicate LastWithName(pairs: seq<(string, string)>, i: int)
    requires 0 <= i < |pairs|
  {
    forall j :: i < j < |pairs| ==> pairs[j].0 != pairs[i].0
  }

  /** `m` holds one entry per name of `pairs`, each with the value of the last pair with that name. */
  predicate Associates(pairs: seq<(string, string)>, m: map<string, string>) {
    && m.Keys == Names(pairs)
    && forall i :: 0 <= i < |pairs| && LastWithName(pairs, i) ==> m[pairs[i].0] == pairs[i].1
  }

  /**
    Kotlin's `associate`: one entry per distinct name, holding the value of
    the last pair with that name.
   */
  function Associate(pairs: seq<(string, string)>): (m: map<string, string>)
    ensures m.Keys == Names(pairs)
    ensures forall i :: 0 <= i < |pairs| && LastWithName(pairs, i) ==> m[pairs[i].0] == pairs[i].1
  {
    if pairs == [] then map[]
    else
      var prev := Associate(pairs[..|pairs| - 1]);
      var last := pairs[|pairs| - 1];
      AssociateStep(pairs, prev);
      prev[last.0 := last.1]
  }

  /** Adding the last pair to the map of the others gives the map of the whole list. */
  lemma AssociateStep(pairs: seq<(string, string)>, prev: map<string, string>)
    requires |pairs| >= 1
    requires Associates(pairs[..|pairs| - 1], prev)
    ensures Associates(pairs, prev[pairs[|pairs| - 1].0 := pairs[|pairs| - 1].1])
  {
    var init := pairs[..|pairs| - 1];
    var last := pairs[|pairs| - 1];
    var m := prev[last.0 := last.1];
    NamesSnoc(pairs);
    assert m.Keys == prev.Keys + {last.0};
    forall i | 0 <= i < |pairs| && LastWithName(pairs, i) ensures m[pairs[i].0] == pairs[i].1 {
      if i < |pairs| - 1 {
        assert init[i] == pairs[i];
        assert pairs[i].0 != last.0;
        assert LastWithName(init, i);
      }
    }
  }

  /** The names of a list are those of all but its last pair, and the last pair's name. */
  lemma NamesSnoc(pairs: seq<(string, string)>)
    requires |pairs| >= 1
    ensures Names(pairs) == Names(pairs[..|pairs| - 1]) + {pairs[|pairs| - 1].0}
  {
    var init := pairs[..|pairs| - 1];
    assert forall i :: 0 <= i < |init| ==> init[i] == pairs[i];
  }

  /** The name/value pairs of a header, in header order. */
  function Pairs(pieces: seq<string>): (pairs: seq<(string, string)>)
    ensures |pairs| == |pieces|
    ensures forall i :: 0 <= i < |pieces| ==> pairs[i] == CookiePair(pieces[i])
  {
    if pieces == [] then [] else [CookiePair(pieces[0])] + Pairs(pieces[1..])
  }

  /** `parseCookies`: no header gives no cookies. */
  function ParseCookies(cookies: Option<string>): (m: map<string, string>)
    ensures cookies.None? ==> m == map[]
    ensures cookies.Some? ==> m.Keys == Names(Pairs(Split(cookies.value, ';')))
    ensures cookies.Some? ==> m != map[]
  {
    match cookies
    case None => map[]
    case Some(header) =>
      var pieces := Split(header, ';');
      var m := Associate(Pairs(pieces));
      assert Pairs(pieces)[0].0 in Names(Pairs(pieces));
      m
  }

  /** Cookies written with trimmed names free of `=` and trimmed values read back pairwise. */
  lemma PairsOfCookies(names: seq<string>, values: seq<string>)
    requires |names| == |values|
    requires forall i :: 0 <= i < |names| ==> '=' !in names[i] && Trim(names[i]) == names[i]
    requires forall i :: 0 <= i < |values| ==> Trim(values[i]) == values[i]
    ensures forall i :: 0 <= i < |names| ==> Pairs(Cookies(names, values))[i] == (names[i], values[i])
  {
    var pairs := Pairs(Cookies(names, values));
    forall i | 0 <= i < |names| ensures pairs[i] == (names[i], values[i]) {
      CookieRoundTrip(names[i], values[i]);
    }
  }

  lemma NamesByIndex(pairs: seq<(string, string)>, names: seq<string>)
    requires |pairs| == |names|
    requires forall i :: 0 <= i < |names| ==> pairs[i].0 == names[i]
    ensures Names(pairs) == set i | 0 <= i < |names| :: names[i]
  {
    forall k ensures k in Names(pairs) <==> k in set i | 0 <= i < |names| :: names[i] {
      if k in Names(pairs) {
        var i :| 0 <= i < |pairs| && pairs[i].0 == k;
        assert names[i] == k;
      }
      if k in set i | 0 <= i < |names| :: names[i] {
        var i :| 0 <= i < |names| && names[i] == k;
        assert pairs[i].0 == k;
      }
    }
  }

  /**
    Parsing a header made of `name=value` cookies joined by `;` gives each
    name the value of its last cookie, and no other names.
   */
  lemma ParseJoinedHeader(names: seq<string>, values: seq<string>)
    requires |names| == |values| >= 1
    requires forall i :: 0 <= i < |names| ==> '=' !in names[i] && ';' !in names[i] && Trim(names[i]) == names[i]
    requires forall i :: 0 <= i < |values| ==> ';' !in values[i] && Trim(values[i]) == values[i]
    ensures var m := ParseCookies(Some(Join(Cookies(names, values), ";")));
      && m.Keys == (set i | 0 <= i < |names| :: names[i])
      && (forall i :: 0 <= i < |names| && (forall j :: i < j < |names| ==> names[j] != names[i]) ==>
            m[names[i]] == values[i])
  {
    var pieces := Cookies(names, values);
    CookiesHaveNoSemicolon(names, values);
    ParseSplitHeader(pieces);
    PairsOfCookies(names, values);
    AssociateIndexed(Pairs(pieces), names, values);
  }

  lemma CookiesHaveNoSemicolon(names: seq<string>, values: seq<string>)
    requires |names| == |values|
    requires forall i :: 0 <= i < |names| ==> ';' !in names[i]
    requires forall i :: 0 <= i < |values| ==> ';' !in values[i]
    ensures forall i :: 0 <= i < |names| ==> ';' !in Cookies(names, values)[i]
  {
    var pieces := Cookies(names, values);
    forall i | 0 <= i < |pieces| ensures ';' !in pieces[i] {
      assert pieces[i] == names[i] + "=" + values[i];
    }
  }

  /** A header is parsed piece by piece, the pieces being what `split(";")` cuts. */
  lemma ParseHeader(header: string)
    ensures ParseCookies(Some(header)) == Associate(Pairs(Split(header, ';')))
  {
  }

  /** A header joined from `;`-free pieces is parsed piece by piece. */
  lemma ParseSplitHeader(pieces: seq<string>)
    requires |pieces| >= 1
    requires forall i :: 0 <= i < |pieces| ==> ';' !in pieces[i]
    ensures ParseCookies(Some(Join(pieces, ";"))) == Associate(Pairs(pieces))
  {
    var header := Join(pieces, [';']);
    assert Join(pieces, ";") == header;
    SplitJoin(pieces, ';');
    ParseHeader(header);
  }

  /** `associate` over pairs known index by index. */
  lemma AssociateIndexed(pairs: seq<(string, string)>, names: seq<string>, values: seq<string>)
    requires |pairs| == |names| == |values|
    requires forall i :: 0 <= i < |names| ==> pairs[i] == (names[i], values[i])
    ensures Associate(pairs).Keys == (set i | 0 <= i < |names| :: names[i])
    ensures forall i :: 0 <= i < |names| && (forall j :: i < j < |names| ==> names[j] != names[i]) ==>
      Associate(pairs)[names[i]] == values[i]
  {
    var m := Associate(pairs);
    NamesByIndex(pairs, names);
    forall i | 0 <= i < |names| && (forall j :: i < j < |names| ==> names[j] != names[i])
      ensures m[names[i]] == values[i]
    {
      assert LastWithName(pairs, i) by {
        forall j | i < j < |pairs| ensures pairs[j].0 != pairs[i].0 {
          assert pairs[j].0 == names[j];
        }
      }
    }
  }

  /** The cookies `name=value`, pairwise. */
  function Cookies(names: seq<string>, values: seq<string>): (pieces: seq<string>)
    requires |names| == |values|
    ensures |pieces| == |names|
    ensures forall i :: 0 <= i < |names| ==> pieces[i] == names[i] + "=" + values[i]
  {
    if names == [] then [] else [names[0] + "=" + values[0]] + Cookies(names[1..], values[1..])
  }

  /** An empty header still yields one cookie: the empty name with the empty value. */
  lemma EmptyHeader()
    ensures ParseCookies(Some("")) == map["" := ""]
  {
    assert Split("", ';') == [""];
    EmptyCookie();
    var pairs := Pairs([""]);
    assert pairs == [("", "")];
    SingleCookie(pairs);
  }

  lemma EmptyCookie()
    ensures CookiePair("") == ("", "")
  {
    assert IndexOf("", '=') == None;
    assert Trim("") == "";
  }

  lemma SingleCookie(pairs: seq<(string, string)>)
    requires |pairs| == 1
    ensures Associate(pairs) == map[pairs[0].0 := pairs[0].1]
  {
    assert pairs[..0] == [];
  }

  /**
    The visitor-id lookup (`getUserId`): the value of the last `_alby_user`
    cookie, or None without a header or without such a cookie.
   */
  function UserId(cookies: Option<string>): (id: Option<string>)
    ensures cookies.None? ==> id.None?
    ensures id.Some? <==> UserCookie in ParseCookies(cookies)
    ensures id.Some? ==> id.value == ParseCookies(cookies)[UserCookie]
  {
    var cookieMap := ParseCookies(cookies);
    if UserCookie in cookieMap then Some(cookieMap[UserCookie]) else None
  }

  /** The visitor-id cookie's name is trimmed and holds neither delimiter. */
  lemma UserCookieIsPlain()
    ensures ';' !in UserCookie && '=' !in UserCookie && Trim(UserCookie) == UserCookie
  {
    assert UserCookie[0] == '_' && UserCookie[|UserCookie| - 1] == 'r';
    assert !IsWhitespace(UserCookie[0]) && !IsWhitespace(UserCookie[|UserCookie| - 1]);
  }

  /**
    A cookie at the end of a header overrides every earlier cookie with the
    same name: its trimmed value is the one the name maps to.
   */
  lemma LastCookieWins(header: string, name: string, value: string)
    requires '=' !in name && ';' !in name && Trim(name) == name
    requires ';' !in value
    ensures var m := ParseCookies(Some(header + ";" + name + "=" + value));
      name in m && m[name] == Trim(value)
  {
    var piece := name + "=" + value;
    assert ';' !in piece by {
      assert piece == name + ['='] + value;
    }
    var whole := header + [';'] + piece;
    assert header + ";" + name + "=" + value == whole;
    SplitAround(header, piece, ';');
    SplitNoSep(piece, ';');
    var pieces := Split(header, ';') + [piece];
    assert Split(whole, ';') == pieces;
    ParseHeader(whole);
    CookieRoundTrip(name, value);
    var pairs := Pairs(pieces);
    assert pairs[|pairs| - 1] == (name, Trim(value));
    LastPairWins(pairs);
  }

  /** The last pair's value is the one its name maps to. */
  lemma LastPairWins(pairs: seq<(string, string)>)
    requires |pairs| >= 1
    ensures pairs[|pairs| - 1].0 in Associate(pairs)
    ensures Associate(pairs)[pairs[|pairs| - 1].0] == pairs[|pairs| - 1].1
  {
  }

  /**
    A `_alby_user` cookie at the end of a header sets the visitor id to its
    trimmed value, whatever cookies come before it.
   */
  lemma LastUserCookieWins(header: string, id: string)
    requires ';' !in id
    ensures UserId(Some(header + ";" + UserCookie + "=" + id)) == Some(Trim(id))
  {
    UserCookieIsPlain();
    LastCookieWins(header, UserCookie, id);
  }
}
