/** `escapeHtml` of `utils.js`: five global replacements applied in turn,
    `&` first, then `<`, `>`, `"` and `'`. */
module HtmlEscape {
  import opened Wrappers
  import opened Text

  /** `s.replace(/c/g, rep)` for a one-character pattern. */
  function ReplaceAll(s: string, c: char, rep: string): string {
    if |s| == 0 then "" else (if s[0] == c then rep else [s[0]]) + ReplaceAll(s[1..], c, rep)
  }

  /** The five passes exactly as the source chains them. */
  function Passes(s: string): string {
    var amp := ReplaceAll(s, '&', "&amp;");
    var lt := ReplaceAll(amp, '<', "&lt;");
    var gt := ReplaceAll(lt, '>', "&gt;");
    var quot := ReplaceAll(gt, '"', "&quot;");
    ReplaceAll(quot, '\'', "&#039;")
  }

  /** The entity a single character becomes, or the character itself. */
  function EscapeChar(c: char): string {
    match c
    case '&' => "&amp;"
    case '<' => "&lt;"
    case '>' => "&gt;"
    case '"' => "&quot;"
    case '\'' => "&#039;"
    case _ => [c]
  }

  /** The per-character reading of escaping: each character mapped on its own. */
  function EscapeEach(s: string): string {
    if |s| == 0 then "" else EscapeChar(s[0]) + EscapeEach(s[1..])
  }

  predicate Special(c: char) {
    c == '&' || c == '<' || c == '>' || c == '"' || c == '\''
  }

  /** `escapeHtml(unsafe)`; `None` stands for any argument that is not a string. */
  function EscapeHtml(unsafe: Option<string>): (r: string)
    ensures unsafe.None? ==> r == ""
    ensures unsafe.Some? ==> r == EscapeEach(unsafe.value)
  {
    match unsafe
    case None => ""
    case Some(s) =>
      PassesIsPerCharacter(s);
      Passes(s)
  }

  lemma {:induction false} ReplaceAllAppend(a: string, b: string, c: char, rep: string)
    ensures ReplaceAll(a + b, c, rep) == ReplaceAll(a, c, rep) + ReplaceAll(b, c, rep)
    decreases |a|
  {
    if |a| == 0 {
      assert a + b == b;
    } else {
      assert (a + b)[1..] == a[1..] + b;
      ReplaceAllAppend(a[1..], b, c, rep);
    }
  }

  lemma {:induction false} ReplaceAllAbsent(t: string, c: char, rep: string)
    requires forall i :: 0 <= i < |t| ==> t[i] != c
    ensures ReplaceAll(t, c, rep) == t
    decreases |t|
  {
    if |t| > 0 {
      ReplaceAllAbsent(t[1..], c, rep);
    }
  }

  lemma {:induction false} PassesAppend(a: string, b: string)
    ensures Passes(a + b) == Passes(a) + Passes(b)
  {
    ReplaceAllAppend(a, b, '&', "&amp;");
    var a1, b1 := ReplaceAll(a, '&', "&amp;"), ReplaceAll(b, '&', "&amp;");
    ReplaceAllAppend(a1, b1, '<', "&lt;");
    var a2, b2 := ReplaceAll(a1, '<', "&lt;"), ReplaceAll(b1, '<', "&lt;");
    ReplaceAllAppend(a2, b2, '>', "&gt;");
    var a3, b3 := ReplaceAll(a2, '>', "&gt;"), ReplaceAll(b2, '>', "&gt;");
    ReplaceAllAppend(a3, b3, '"', "&quot;");
    var a4, b4 := ReplaceAll(a3, '"', "&quot;"), ReplaceAll(b3, '"', "&quot;");
    ReplaceAllAppend(a4, b4, '\'', "&#039;");
  }

  lemma {:induction false} ReplaceAllOne(c: char, d: char, rep: string)
    ensures ReplaceAll([c], d, rep) == if c == d then rep else [c]
  {
    assert [c][1..] == [];
  }

  /** On one character the passes give that character's entity: no
      replacement text contains a character a later pass replaces. */
  lemma {:induction false} PassesChar(c: char)
    ensures Passes([c]) == EscapeChar(c)
  {
    if Special(c) {
      PassesSpecial(c);
    } else {
      ReplaceAllOne(c, '&', "&amp;");
      ReplaceAllOne(c, '<', "&lt;");
      ReplaceAllOne(c, '>', "&gt;");
      ReplaceAllOne(c, '"', "&quot;");
      ReplaceAllOne(c, '\'', "&#039;");
    }
  }

  lemma {:induction false} PassesSpecial(c: char)
    requires Special(c)
    ensures Passes([c]) == EscapeChar(c)
  {
    ReplaceAllOne(c, '&', "&amp;");
    var t1 := ReplaceAll([c], '&', "&amp;");
    if c == '<' { ReplaceAllOne(c, '<', "&lt;"); } else { ReplaceAllAbsent(t1, '<', "&lt;"); }
    var t2 := ReplaceAll(t1, '<', "&lt;");
    if c == '>' { ReplaceAllOne(c, '>', "&gt;"); } else { ReplaceAllAbsent(t2, '>', "&gt;"); }
    var t3 := ReplaceAll(t2, '>', "&gt;");
    if c == '"' { ReplaceAllOne(c, '"', "&quot;"); } else { ReplaceAllAbsent(t3, '"', "&quot;"); }
    var t4 := ReplaceAll(t3, '"', "&quot;");
    if c == '\'' { ReplaceAllOne(c, '\'', "&#039;"); } else { ReplaceAllAbsent(t4, '\'', "&#039;"); }
  }

  /** Because `&` is replaced first, the five sequential passes equal the
      per-character map: no entity is escaped a second time. */
  lemma {:induction false} PassesIsPerCharacter(s: string)
    ensures Passes(s) == EscapeEach(s)
    decreases |s|
  {
    if |s| > 0 {
      assert s == [s[0]] + s[1..];
      PassesAppend([s[0]], s[1..]);
      PassesChar(s[0]);
      PassesIsPerCharacter(s[1..]);
    }
  }

  /** One of the five entities starts at index `i` of `t`. */
  predicate EntityAt(t: string, i: int) {
    || OccursAt(t, "&amp;", i) || OccursAt(t, "&lt;", i) || OccursAt(t, "&gt;", i)
    || OccursAt(t, "&quot;", i) || OccursAt(t, "&#039;", i)
  }

  lemma {:induction false} EntityAtShift(x: string, t: string, i: int)
    requires 0 <= i && EntityAt(t, i)
    ensures EntityAt(x + t, |x| + i)
  {
    var u := x + t;
    forall e: string | OccursAt(t, e, i)
      ensures OccursAt(u, e, |x| + i)
    {
      assert u[|x| + i..|x| + i + |e|] == t[i..i + |e|];
    }
  }

  /** `t` holds none of `<`, `>`, `"` and `'`. */
  predicate NoMarkup(t: string) {
    forall i :: 0 <= i < |t| ==> t[i] != '<' && t[i] != '>' && t[i] != '"' && t[i] != '\''
  }

  /** Every `&` of `t` opens one of the five entities. */
  predicate AmpersandsOpenEntities(t: string) {
    forall i :: 0 <= i < |t| && t[i] == '&' ==> EntityAt(t, i)
  }

  /** No escaped text holds `<`, `>`, `"` or `'`. */
  lemma {:induction false} EscapeEachNoMarkup(s: string)
    ensures NoMarkup(EscapeEach(s))
    decreases |s|
  {
    if |s| > 0 {
      EscapeEachNoMarkup(s[1..]);
      var head := EscapeChar(s[0]);
      var rest := EscapeEach(s[1..]);
      var r := head + rest;
      assert EscapeEach(s) == r;
      EscapeCharShape(s[0]);
      forall i | 0 <= i < |r|
        ensures r[i] != '<' && r[i] != '>' && r[i] != '"' && r[i] != '\''
      {
        if i >= |head| {
          assert r[i] == rest[i - |head|];
        }
      }
    }
  }

  /** An entity holds no markup character, and `&` only at its start. */
  lemma {:induction false} EscapeCharShape(c: char)
    ensures var e := EscapeChar(c);
      && (forall i :: 0 <= i < |e| ==> e[i] != '<' && e[i] != '>' && e[i] != '"' && e[i] != '\'')
      && (forall i :: 0 < i < |e| ==> e[i] != '&')
      && (e[0] == '&' <==> Special(c))
  {
  }

  /** Every `&` of escaped text opens one of the five entities. */
  lemma {:induction false} EscapeEachEntities(s: string)
    ensures AmpersandsOpenEntities(EscapeEach(s))
    decreases |s|
  {
    if |s| > 0 {
      EscapeEachEntities(s[1..]);
      var head := EscapeChar(s[0]);
      var rest := EscapeEach(s[1..]);
      var r := head + rest;
      assert EscapeEach(s) == r;
      forall i | 0 <= i < |r| && r[i] == '&'
        ensures EntityAt(r, i)
      {
        EscapeCharShape(s[0]);
        if i < |head| {
          assert i == 0 && Special(s[0]);
          assert r[..|head|] == head;
        } else {
          assert rest[i - |head|] == '&';
          EntityAtShift(head, rest, i - |head|);
        }
      }
    }
  }

  /** Escaped text is safe to splice into HTML: it holds no `<`, `>`, `"`
      or `'`, and every `&` in it opens one of the five entities. */
  lemma {:induction false} EscapedIsSafe(s: string)
    ensures NoMarkup(EscapeHtml(Some(s)))
    ensures AmpersandsOpenEntities(EscapeHtml(Some(s)))
  {
    assert EscapeHtml(Some(s)) == EscapeEach(s);
    EscapeEachNoMarkup(s);
    EscapeEachEntities(s);
  }

  /** Text without any of `& < > " '` passes through unchanged. */
  lemma {:induction false} EscapeIdentity(s: string)
    requires forall i :: 0 <= i < |s| ==> !Special(s[i])
    ensures EscapeHtml(Some(s)) == s
    decreases |s|
  {
    if |s| > 0 {
      EscapeIdentity(s[1..]);
      assert s == [s[0]] + s[1..];
    }
  }

  /** Reads the five entities back into their characters; every other
      character stands for itself. */
  function Unescape(t: string): string
    decreases |t|
  {
    if |t| == 0 then ""
    else if t[0] != '&' then [t[0]] + Unescape(t[1..])
    else if |t| >= 5 && t[1] == 'a' && t[2] == 'm' && t[3] == 'p' && t[4] == ';' then "&" + Unescape(t[5..])
    else if |t| >= 4 && t[1] == 'l' && t[2] == 't' && t[3] == ';' then "<" + Unescape(t[4..])
    else if |t| >= 4 && t[1] == 'g' && t[2] == 't' && t[3] == ';' then ">" + Unescape(t[4..])
    else if |t| >= 6 && t[1] == 'q' && t[2] == 'u' && t[3] == 'o' && t[4] == 't' && t[5] == ';' then "\"" + Unescape(t[6..])
    else if |t| >= 6 && t[1] == '#' && t[2] == '0' && t[3] == '3' && t[4] == '9' && t[5] == ';' then "'" + Unescape(t[6..])
    else [t[0]] + Unescape(t[1..])
  }

  lemma {:induction false} UnescapeChar(c: char, rest: string)
    ensures Unescape(EscapeChar(c) + rest) == [c] + Unescape(rest)
  {
    var e := EscapeChar(c);
    var t := e + rest;
    assert t[|e|..] == rest;
    assert forall i :: 0 <= i < |e| ==> t[i] == e[i];
  }

  /** Escaping loses no information: reading the entities back restores the input. */
  lemma {:induction false} UnescapeEscape(s: string)
    ensures Unescape(EscapeHtml(Some(s))) == s
    decreases |s|
  {
    if |s| > 0 {
      UnescapeEscape(s[1..]);
      UnescapeChar(s[0], EscapeEach(s[1..]));
      assert s == [s[0]] + s[1..];
    }
  }
}
