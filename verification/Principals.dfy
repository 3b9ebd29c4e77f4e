/** Kerberos principal names (api/src/kerberos/principal.rs): the parser, the printer and the loose
    comparison. A Rust `String` is a Dafny `string` of Unicode scalar values. */
module Principals {
  import opened Bytes
  import Utf8

  datatype Principal = Principal(components: seq<string>, realm: string)

  datatype ParseError =
    | BadLength
    | LoneBackslash
    | SecondAt
    | ControlCharacter
    | NoRealm
    | EmptyRealm
    | EmptyComponent

  /** Longest principal accepted anywhere, in bytes of its text form. */
  const MAX_LEN: nat := 512

  /** `char::is_control`: general category Cc. */
  predicate IsControl(c: char) {
    c as int < 0x20 || 0x7f <= c as int < 0xa0
  }

  /** `char::is_whitespace`: the White_Space property. */
  predicate IsSpace(c: char) {
    var v := c as int;
    9 <= v <= 13 || v == 0x20 || v == 0x85 || v == 0xa0 || v == 0x1680 || 0x2000 <= v <= 0x200a
    || v == 0x2028 || v == 0x2029 || v == 0x202f || v == 0x205f || v == 0x3000
  }

  function TrimStart(s: string): string {
    if s != "" && IsSpace(s[0]) then TrimStart(s[1..]) else s
  }

  function TrimEnd(s: string): string {
    if s != "" && IsSpace(s[|s| - 1]) then TrimEnd(s[..|s| - 1]) else s
  }

  function Trim(s: string): string { TrimEnd(TrimStart(s)) }

  // ------------------------------------------------------------------ printing

  predicate Special(c: char) { c == '/' || c == '@' || c == '\\' }

  function Escape(s: string): string {
    if s == "" then ""
    else (if Special(s[0]) then ['\\', s[0]] else [s[0]]) + Escape(s[1..])
  }

  /** The components, escaped and joined by `/`. */
  function Names(components: seq<string>): string {
    if components == [] then ""
    else if |components| == 1 then Escape(components[0])
    else Escape(components[0]) + ("/" + Names(components[1..]))
  }

  function Display(p: Principal): string {
    Names(p.components) + ("@" + Escape(p.realm))
  }

  // ------------------------------------------------------------------ parsing

  /** What the scan has collected: the components so far, and the realm once an `@` was met. */
  datatype Scanned = Scanned(components: seq<string>, realm: Option<string>)

  function Push(st: Scanned, c: char): Scanned
    requires st.components != []
  {
    match st.realm
    case Some(r) => st.(realm := Some(r + [c]))
    case None =>
      var n := |st.components| - 1;
      st.(components := st.components[..n] + [st.components[n] + [c]])
  }

  /** The character loop of `parse` over what is left of the text. */
  function Scan(raw: string, st: Scanned): Result<Scanned, ParseError>
    requires st.components != []
    decreases |raw|
  {
    if raw == "" then Ok(st)
    else if raw[0] == '\\' then
      if |raw| == 1 then Err(LoneBackslash)
      else if IsControl(raw[1]) then Err(ControlCharacter)
      else Scan(raw[2..], Push(st, raw[1]))
    else if raw[0] == '/' && st.realm.None? then
      Scan(raw[1..], st.(components := st.components + [""]))
    else if raw[0] == '@' && st.realm.None? then
      Scan(raw[1..], st.(realm := Some("")))
    else if raw[0] == '@' then Err(SecondAt)
    else if IsControl(raw[0]) then Err(ControlCharacter)
    else Scan(raw[1..], Push(st, raw[0]))
  }

  function Finish(st: Scanned): Result<Principal, ParseError> {
    if st.realm.None? then Err(NoRealm)
    else if st.realm.value == "" then Err(EmptyRealm)
    else if "" in st.components then Err(EmptyComponent)
    else Ok(Principal(st.components, st.realm.value))
  }

  function Parse(raw: string): Result<Principal, ParseError> {
    var text := Trim(raw);
    if text == "" || |Utf8.Encode(text)| > MAX_LEN then Err(BadLength)
    else
      var st :- Scan(text, Scanned([""], None));
      Finish(st)
  }

  // ------------------------------------------------------------------ comparison

  function LowerAscii(c: char): char {
    if 'A' <= c <= 'Z' then (c as int + 32) as char else c
  }

  predicate EqIgnoreCase(a: string, b: string) {
    |a| == |b| && forall i :: 0 <= i < |a| ==> LowerAscii(a[i]) == LowerAscii(b[i])
  }

  predicate SameIgnoreCase(p: Principal, q: Principal) {
    && EqIgnoreCase(p.realm, q.realm)
    && |p.components| == |q.components|
    && forall i :: 0 <= i < |p.components| ==> EqIgnoreCase(p.components[i], q.components[i])
  }

  // ------------------------------------------------------------------ the loops

  method ParseText(input: string) returns (r: Result<Principal, ParseError>)
    ensures r == Parse(input)
  {
    var raw := Trim(input);
    if raw == "" || |Utf8.Encode(raw)| > MAX_LEN {
      return Err(BadLength);
    }
    var components: seq<string> := [""];
    var realm: Option<string> := None;
    var i := 0;
    assert raw[0..] == raw;
    while i < |raw|
      invariant 0 <= i <= |raw| && components != []
      invariant Scan(raw[i..], Scanned(components, realm)) == Scan(raw, Scanned([""], None))
      decreases |raw| - i
    {
      ghost var left := raw[i..];
      var c := raw[i];
      i := i + 1;
      assert left[1..] == raw[i..];
      var ch := c;
      if c == '\\' {
        if i == |raw| {
          return Err(LoneBackslash);
        }
        ch := raw[i];
        i := i + 1;
        assert left[2..] == raw[i..];
      } else if c == '/' && realm.None? {
        components := components + [""];
        continue;
      } else if c == '@' && realm.None? {
        realm := Some("");
        continue;
      } else if c == '@' {
        return Err(SecondAt);
      }
      if IsControl(ch) {
        return Err(ControlCharacter);
      }
      match realm {
        case Some(r) =>
          realm := Some(r + [ch]);
        case None =>
          var n := |components| - 1;
          components := components[..n] + [components[n] + [ch]];
      }
    }
    if realm.None? {
      return Err(NoRealm);
    }
    if realm.value == "" {
      return Err(EmptyRealm);
    }
    for k := 0 to |components|
      invariant "" !in components[..k]
    {
      if components[k] == "" {
        return Err(EmptyComponent);
      }
    }
    return Ok(Principal(components, realm.value));
  }

  method EscapeText(s: string) returns (out: string)
    ensures out == Escape(s)
  {
    out := "";
    for i := 0 to |s|
      invariant out + Escape(s[i..]) == Escape(s)
    {
      assert s[i..][1..] == s[i + 1..];
      if Special(s[i]) {
        out := out + "\\";
      }
      out := out + [s[i]];
    }
  }

  /** What is still to be printed of the components from `i` on. */
  function NamesFrom(components: seq<string>, i: nat): string
    requires i <= |components|
  {
    if i == 0 then Names(components) else if i < |components| then "/" + Names(components[i..]) else ""
  }

  lemma NamesFromStep(components: seq<string>, i: nat)
    requires i < |components|
    ensures NamesFrom(components, i) == (if i > 0 then "/" else "") + Escape(components[i]) + NamesFrom(components, i + 1)
  {
    hide Escape;
    assert components[i..][1..] == components[i + 1..] && components[0..] == components;
  }

  method PrintText(p: Principal) returns (out: string)
    ensures out == Display(p)
  {
    hide Escape, Names;
    out := "";
    for i := 0 to |p.components|
      invariant out + NamesFrom(p.components, i) == Names(p.components)
    {
      NamesFromStep(p.components, i);
      if i > 0 {
        out := out + "/";
      }
      var e := EscapeText(p.components[i]);
      out := out + e;
    }
    var e := EscapeText(p.realm);
    NamesDone(p.components);
    out := out + "@" + e;
  }

  lemma NamesDone(components: seq<string>)
    ensures NamesFrom(components, |components|) == ""
  {
  }

  // ------------------------------------------------------------------ what printing and parsing promise

  predicate NoControl(s: string) {
    forall c :: c in s ==> !IsControl(c)
  }

  /** A principal the parser could have produced. */
  predicate Complete(p: Principal) {
    && p.components != [] && "" !in p.components && p.realm != ""
    && NoControl(p.realm) && forall c :: c in p.components ==> NoControl(c)
  }

  /** What surrounding-whitespace trimming leaves of a printed principal. */
  function Trimmed(p: Principal): Principal {
    Principal(if p.components == [] then [] else [TrimStart(p.components[0])] + p.components[1..],
              TrimEnd(p.realm))
  }

  predicate Fits(p: Principal) { |Utf8.Encode(Display(p))| <= MAX_LEN }

  function Appended(st: Scanned, s: string): Scanned
    requires st.components != []
  {
    match st.realm
    case Some(r) => st.(realm := Some(r + s))
    case None =>
      var n := |st.components| - 1;
      st.(components := st.components[..n] + [st.components[n] + s])
  }

  lemma AppendedEmpty(st: Scanned)
    requires st.components != []
    ensures Appended(st, "") == st
  {
    match st.realm
    case Some(r) =>
      assert r + "" == r;
    case None =>
      var n := |st.components| - 1;
      assert st.components[n] + "" == st.components[n];
      assert st.components == st.components[..n] + [st.components[n]];
  }

  lemma AppendedPush(st: Scanned, c: char, t: string)
    requires st.components != []
    ensures Appended(Push(st, c), t) == Appended(st, [c] + t)
  {
    match st.realm
    case Some(r) =>
      assert r + [c] + t == r + ([c] + t);
    case None =>
      var n := |st.components| - 1;
      var last := st.components[n];
      assert last + [c] + t == last + ([c] + t);
  }

  /** An escaped text is taken in whole, unless it holds a control character. */
  lemma {:induction false} ScanEscaped(s: string, rest: string, st: Scanned)
    requires st.components != []
    ensures NoControl(s) ==> Scan(Escape(s) + rest, st) == Scan(rest, Appended(st, s))
    ensures !NoControl(s) ==> Scan(Escape(s) + rest, st) == Err(ControlCharacter)
    decreases |s|
  {
    if s == "" {
      assert Escape(s) + rest == rest;
      AppendedEmpty(st);
    } else {
      var c, t := s[0], s[1..];
      assert s == [c] + t;
      ScanOne(c, Escape(t) + rest, st);
      var piece := if Special(c) then ['\\', c] else [c];
      assert Escape(s) + rest == piece + (Escape(t) + rest);
      if !IsControl(c) {
        ScanEscaped(t, rest, Push(st, c));
        AppendedPush(st, c, t);
      }
    }
  }

  lemma ScanOne(c: char, rest: string, st: Scanned)
    requires st.components != []
    ensures Scan((if Special(c) then ['\\', c] else [c]) + rest, st) ==
            if IsControl(c) then Err(ControlCharacter) else Scan(rest, Push(st, c))
  {
    var raw := (if Special(c) then ['\\', c] else [c]) + rest;
    if Special(c) {
      assert raw[2..] == rest;
    } else {
      assert raw[1..] == rest;
    }
  }

  lemma {:induction false} ScanNames(components: seq<string>, rest: string, done: seq<string>)
    requires components != []
    ensures (forall c :: c in components ==> NoControl(c)) ==>
              Scan(Names(components) + rest, Scanned(done + [""], None)) == Scan(rest, Scanned(done + components, None))
    ensures !(forall c :: c in components ==> NoControl(c)) ==>
              Scan(Names(components) + rest, Scanned(done + [""], None)) == Err(ControlCharacter)
    decreases |components|
  {
    var first, more := components[0], components[1..];
    assert components == [first] + more;
    var st := Scanned(done + [""], None);
    assert Appended(st, first) == Scanned(done + [first], None) by {
      assert "" + first == first;
    }
    if more == [] {
      ScanEscaped(first, rest, st);
      assert components == [first];
    } else {
      var tail := "/" + (Names(more) + rest);
      assert Names(components) + rest == Escape(first) + tail;
      ScanEscaped(first, tail, st);
      assert tail[1..] == Names(more) + rest;
      ScanNames(more, rest, done + [first]);
      assert done + [first] + more == done + components;
    }
  }

  /** Printed text, scanned: the principal itself, or the control character it holds. */
  lemma ScanDisplay(p: Principal)
    requires p.components != []
    ensures var clean := NoControl(p.realm) && forall c :: c in p.components ==> NoControl(c);
            Scan(Display(p), Scanned([""], None)) ==
            if clean then Ok(Scanned(p.components, Some(p.realm))) else Err(ControlCharacter)
  {
    hide Escape, Names, IsControl;
    var tail := "@" + Escape(p.realm);
    assert [""] == [] + [""] && [] + p.components == p.components;
    ScanNames(p.components, tail, []);
    assert tail[1..] == Escape(p.realm) + "";
    ScanEscaped(p.realm, "", Scanned(p.components, Some("")));
    assert "" + p.realm == p.realm;
  }

  lemma {:induction false} TrimStartEscape(s: string, c: char, rest: string)
    requires !IsSpace(c)
    ensures TrimStart(Escape(s) + ([c] + rest)) == Escape(TrimStart(s)) + ([c] + rest)
  {
    if s != "" {
      var raw := Escape(s) + ([c] + rest);
      if IsSpace(s[0]) {
        assert raw[1..] == Escape(s[1..]) + ([c] + rest);
        TrimStartEscape(s[1..], c, rest);
      }
    } else {
      assert Escape(s) + ([c] + rest) == [c] + rest;
    }
  }

  lemma {:induction false} EscapeSnoc(s: string, c: char)
    ensures Escape(s + [c]) == Escape(s) + (if Special(c) then ['\\', c] else [c])
  {
    if s == "" {
      assert s + [c] == [c];
      assert Escape([c][1..]) == "";
    } else {
      EscapeSnoc(s[1..], c);
      assert (s + [c])[1..] == s[1..] + [c];
    }
  }

  lemma {:induction false} TrimEndEscape(before: string, c: char, s: string)
    requires !IsSpace(c)
    ensures TrimEnd(before + ([c] + Escape(s))) == before + ([c] + Escape(TrimEnd(s)))
    decreases |s|
  {
    var raw := before + ([c] + Escape(s));
    if s == "" {
      assert raw == before + [c];
    } else {
      var t, last := s[..|s| - 1], s[|s| - 1];
      assert s == t + [last];
      EscapeSnoc(t, last);
      if IsSpace(last) {
        assert raw[..|raw| - 1] == before + ([c] + Escape(t));
        TrimEndEscape(before, c, t);
      }
    }
  }

  /** What follows the first component in a printed principal. */
  function AfterFirst(more: seq<string>, tail: string): string {
    if more == [] then tail else "/" + (Names(more) + tail)
  }

  lemma NamesFirst(first: string, more: seq<string>, tail: string)
    ensures Names([first] + more) + tail == Escape(first) + AfterFirst(more, tail)
  {
    assert ([first] + more)[1..] == more;
    if more != [] {
      assert Escape(first) + ("/" + Names(more)) + tail == Escape(first) + ("/" + (Names(more) + tail));
    }
  }

  lemma AfterFirstPlain(more: seq<string>, realm: string)
    ensures var after := AfterFirst(more, "@" + realm);
            after != "" && !IsSpace(after[0]) && after == [after[0]] + after[1..]
  {
  }

  lemma TrimStartNames(components: seq<string>, realm: string)
    requires components != []
    ensures TrimStart(Names(components) + ("@" + realm)) ==
            Names([TrimStart(components[0])] + components[1..]) + ("@" + realm)
  {
    hide Escape, TrimStart, IsSpace, Names, AfterFirst;
    var first, more, tail := components[0], components[1..], "@" + realm;
    assert components == [first] + more;
    NamesFirst(first, more, tail);
    NamesFirst(TrimStart(first), more, tail);
    AfterFirstPlain(more, realm);
    var after := AfterFirst(more, tail);
    TrimStartEscape(first, after[0], after[1..]);
  }

  lemma TrimDisplay(p: Principal)
    ensures Trim(Display(p)) == Display(Trimmed(p))
  {
    var names := Names(Trimmed(p).components);
    TrimStartDisplay(p);
    TrimEndEscape(names, '@', p.realm);
  }

  lemma TrimStartDisplay(p: Principal)
    ensures TrimStart(Display(p)) == Names(Trimmed(p).components) + ("@" + Escape(p.realm))
  {
    if p.components == [] {
      assert Display(p) == "@" + Escape(p.realm);
    } else {
      TrimStartNames(p.components, Escape(p.realm));
    }
  }

  /** What parsing a printed principal gives, for every principal there is: the principal without the
      whitespace at its two ends when that is complete and fits, and an error otherwise. */
  lemma ParseDisplay(p: Principal, q: Principal)
    ensures Parse(Display(p)) == Ok(q) <==> q == Trimmed(p) && Complete(q) && Fits(q)
  {
    TrimDisplay(p);
    var t := Trimmed(p);
    if t.components == [] {
      assert Display(t) == Display(Principal([""], t.realm));
      ScanDisplay(Principal([""], t.realm));
    } else {
      ScanDisplay(t);
    }
  }

  predicate NoOuterSpace(p: Principal) {
    && (p.components != [] && p.components[0] != "" ==> !IsSpace(p.components[0][0]))
    && (p.realm != "" ==> !IsSpace(p.realm[|p.realm| - 1]))
  }

  lemma {:induction false} TrimStartShortens(s: string)
    ensures TrimStart(s) == s || |TrimStart(s)| < |s|
  {
    if s != "" && IsSpace(s[0]) {
      TrimStartShortens(s[1..]);
    }
  }

  lemma {:induction false} TrimEndShortens(s: string)
    ensures TrimEnd(s) == s || |TrimEnd(s)| < |s|
  {
    if s != "" && IsSpace(s[|s| - 1]) {
      TrimEndShortens(s[..|s| - 1]);
    }
  }

  lemma TrimmedFixed(p: Principal)
    requires p.components != []
    ensures Trimmed(p) == p <==> NoOuterSpace(p)
  {
    var first, realm := p.components[0], p.realm;
    TrimStartShortens(first);
    TrimEndShortens(realm);
    assert p.components == [first] + p.components[1..];
    if first != "" && IsSpace(first[0]) {
      TrimStartShortens(first[1..]);
      assert Trimmed(p).components[0] != first;
    }
    if realm != "" && IsSpace(realm[|realm| - 1]) {
      TrimEndShortens(realm[..|realm| - 1]);
    }
  }

  /** `parse` undoes `Display` exactly on the complete principals without whitespace at either end
      whose printed form fits; slashes, at-signs and backslashes never matter. */
  lemma RoundTrip(p: Principal)
    ensures Parse(Display(p)) == Ok(p) <==> Complete(p) && NoOuterSpace(p) && Fits(p)
  {
    ParseDisplay(p, p);
    if p.components != [] {
      TrimmedFixed(p);
    }
  }

  /** So no two such principals print alike. */
  lemma PrintingInjective(p: Principal, q: Principal)
    requires Complete(p) && NoOuterSpace(p) && Fits(p)
    requires Complete(q) && NoOuterSpace(q) && Fits(q)
    requires Display(p) == Display(q)
    ensures p == q
  {
    RoundTrip(p);
    RoundTrip(q);
  }
}
