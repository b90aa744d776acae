// Text for Telegram's HTML mode (src/subscriptions/telegram.rs, src/notifier.rs):
// escaping, and cutting a text so that its escaped form fits a budget.

module Escape {
  import opened Basics

  const ELLIPSIS := '\U{2026}'
  const MAX_TEXT := 4096
  const MAX_SUBJECT := 256

  /** Every occurrence of a character replaced by a string. */
  function Replace(s: string, c: char, sub: string): string {
    if s == [] then []
    else (if s[0] == c then sub else [s[0]]) + Replace(s[1..], c, sub)
  }

  /** `&` goes first, so the entities put in for the other two are left alone. */
  function Escaped(s: string): string {
    Replace(Replace(Replace(s, '&', "&amp;"), '<', "&lt;"), '>', "&gt;")
  }

  // ---- Character by character ----

  function Entity(c: char): string {
    if c == '&' then "&amp;" else if c == '<' then "&lt;" else if c == '>' then "&gt;" else [c]
  }

  function Entities(s: string): string {
    if s == [] then [] else Entity(s[0]) + Entities(s[1..])
  }

  lemma {:induction false} ReplaceJoins(a: string, b: string, c: char, sub: string)
    ensures Replace(a + b, c, sub) == Replace(a, c, sub) + Replace(b, c, sub)
  {
    if a == [] {
      assert a + b == b;
    } else {
      assert (a + b)[1..] == a[1..] + b;
      ReplaceJoins(a[1..], b, c, sub);
    }
  }

  lemma EscapedOne(c: char)
    ensures Escaped([c]) == Entity(c)
  {
    hide Replace;
    ReplaceOne(c, '&', "&amp;");
    ReplaceOne(c, '<', "&lt;");
    ReplaceOne(c, '>', "&gt;");
    if c == '&' {
      Untouched("&amp;", '<', "&lt;");
      Untouched("&amp;", '>', "&gt;");
    } else if c == '<' {
      Untouched("&lt;", '>', "&gt;");
    }
  }

  lemma ReplaceOne(d: char, c: char, sub: string)
    ensures Replace([d], c, sub) == if d == c then sub else [d]
  {
    assert Replace([d], c, sub) == (if d == c then sub else [d]) + Replace([d][1..], c, sub);
  }

  lemma {:induction false} Untouched(s: string, c: char, sub: string)
    requires c !in s
    ensures Replace(s, c, sub) == s
  {
    if s != [] {
      Untouched(s[1..], c, sub);
    }
  }

  lemma EscapedJoins(a: string, b: string)
    ensures Escaped(a + b) == Escaped(a) + Escaped(b)
  {
    ReplaceJoins(a, b, '&', "&amp;");
    ReplaceJoins(Replace(a, '&', "&amp;"), Replace(b, '&', "&amp;"), '<', "&lt;");
    ReplaceJoins(Replace(Replace(a, '&', "&amp;"), '<', "&lt;"), Replace(Replace(b, '&', "&amp;"), '<', "&lt;"), '>',
        "&gt;");
  }

  /** The three passes over the whole text do what one pass over its characters would. */
  lemma {:induction false} EscapedIsEntities(s: string)
    ensures Escaped(s) == Entities(s)
  {
    if s != [] {
      EscapedIsEntities(s[1..]);
      EscapedJoins(s[..1], s[1..]);
      EscapedOne(s[0]);
      assert s == s[..1] + s[1..] && s[..1] == [s[0]];
    }
  }

  lemma {:induction false} EntitiesJoin(a: string, b: string)
    ensures Entities(a + b) == Entities(a) + Entities(b)
  {
    if a == [] {
      assert a + b == b;
    } else {
      assert (a + b)[1..] == a[1..] + b;
      EntitiesJoin(a[1..], b);
    }
  }

  lemma EntitiesOne(c: char)
    ensures Entities([c]) == Entity(c)
  {
    assert Entities([c]) == Entity(c) + Entities([]);
  }

  lemma {:induction false} EntitiesLength(s: string)
    ensures |s| <= |Entities(s)| <= 5 * |s|
  {
    if s != [] {
      EntitiesLength(s[1..]);
    }
  }

  // ---- Back again ----

  /** How a reader of the markup sees it. */
  function Unescape(t: string): string {
    if t == [] then []
    else if "&amp;" <= t then ['&'] + Unescape(t[5..])
    else if "&lt;" <= t then ['<'] + Unescape(t[4..])
    else if "&gt;" <= t then ['>'] + Unescape(t[4..])
    else [t[0]] + Unescape(t[1..])
  }

  lemma UnescapeEntity(c: char, rest: string)
    ensures Unescape(Entity(c) + rest) == [c] + Unescape(rest)
  {
    var t := Entity(c) + rest;
    assert t[|Entity(c)|..] == rest;
    assert forall i :: 0 <= i < |Entity(c)| ==> t[i] == Entity(c)[i];
    if c == '&' {
      assert "&amp;" <= t;
    } else if c == '<' {
      assert !("&amp;" <= t) by { assert t[1] == 'l'; }
      assert "&lt;" <= t;
    } else if c == '>' {
      assert !("&amp;" <= t) && !("&lt;" <= t) by { assert t[1] == 'g'; }
      assert "&gt;" <= t;
    } else {
      assert t[0] != '&';
    }
  }

  /** Escaping loses nothing: what is shown is the text. */
  lemma {:induction false} RoundTrip(s: string)
    ensures Unescape(Escaped(s)) == s
  {
    EscapedIsEntities(s);
    if s != [] {
      RoundTrip(s[1..]);
      EscapedIsEntities(s[1..]);
      UnescapeEntity(s[0], Entities(s[1..]));
    }
  }

  // ---- Cutting ----

  /** The escaped text if it fits, else the escape of the longest prefix that leaves room
      for an ellipsis, and the ellipsis. `cut` is that prefix's length. */
  ghost predicate IsCut(s: string, budget: nat, r: string, cut: nat) {
    cut <= |s| &&
    if |Escaped(s)| <= budget then r == Escaped(s) && cut == |s|
    else
      && cut < |s| && r == Escaped(s[..cut]) + [ELLIPSIS]
      && (cut > 0 ==> |r| <= budget)
      && forall k :: cut < k <= |s| ==> |Escaped(s[..k])| + 1 > budget
  }

  method EscapeWithin(s: string, budget: nat) returns (r: string, ghost cut: nat)
    ensures IsCut(s, budget, r, cut)
    ensures |r| <= budget <==> budget >= 1 || s == []
    ensures Escaped(s[..cut]) <= r && Unescape(Escaped(s[..cut])) == s[..cut]
  {
    r := [];
    var used := 0;
    EscapedIsEntities(s);
    RoundTrip(s);
    for i := 0 to |s|
      invariant r == Entities(s[..i]) && used == |r|
      invariant i < |s| ==> i == 0 || used + 1 <= budget
      invariant i == |s| ==> used <= budget
    {
      var piece := Escaped([s[i]]);
      PrefixMore(s, i);
      var reserve := if i + 1 < |s| then 1 else 0;
      if used + |piece| + reserve > budget {
        CutHere(s, i, budget);
        RoundTrip(s[..i]);
        EscapedIsEntities(s[..i]);
        assert (r + [ELLIPSIS])[..|r|] == r;
        return r + [ELLIPSIS], i;
      }
      used := used + |piece|;
      r := r + piece;
    }
    assert s[..|s|] == s;
    cut := |s|;
    assert r[..|r|] == r;
  }

  lemma PrefixMore(s: string, i: nat)
    requires i < |s|
    ensures Entities(s[..i + 1]) == Entities(s[..i]) + Entity(s[i])
    ensures Escaped([s[i]]) == Entity(s[i])
  {
    assert s[..i + 1] == s[..i] + [s[i]];
    EntitiesJoin(s[..i], [s[i]]);
    EntitiesOne(s[i]);
    EscapedOne(s[i]);
  }

  /** Where one more character leaves no room, no longer prefix does, and the whole text
      does not fit. */
  lemma CutHere(s: string, i: nat, budget: nat)
    requires i < |s|
    requires |Entities(s[..i + 1])| + (if i + 1 < |s| then 1 else 0) > budget
    ensures |Escaped(s)| > budget
    ensures forall k :: i < k <= |s| ==> |Escaped(s[..k])| + 1 > budget
  {
    forall k | i < k <= |s|
      ensures |Escaped(s[..k])| >= |Entities(s[..i + 1])| + (k - i - 1)
    {
      assert s[..k] == s[..i + 1] + s[i + 1..k];
      EntitiesJoin(s[..i + 1], s[i + 1..k]);
      EntitiesLength(s[i + 1..k]);
      EscapedIsEntities(s[..k]);
    }
    assert s[..|s|] == s;
  }

  // ---- A whole message ----

  function TruncateChars(s: string, max: nat): string
    requires max >= 1
  {
    if |s| <= max then s else s[..max - 1] + [ELLIPSIS]
  }

  function Head(subject: string): string {
    "<b>" + Escaped(TruncateChars(subject, MAX_SUBJECT)) + "</b>\n\n"
  }

  function Foot(url: string): string {
    "\n\nUnsubscribe: send /stop or open " + Escaped(url)
  }

  /** The subject in bold, of at most 256 characters, an ellipsis for the rest. */
  ghost predicate IsSubject(subject: string, head: string) {
    exists shown ::
      && head == "<b>" + Escaped(shown) + "</b>\n\n"
      && (if |subject| <= 256 then shown == subject else shown == subject[..255] + [ELLIPSIS])
  }

  lemma SubjectIs(subject: string)
    ensures IsSubject(subject, Head(subject))
  {
    var shown := if |subject| <= 256 then subject else subject[..255] + [ELLIPSIS];
    assert Head(subject) == "<b>" + Escaped(shown) + "</b>\n\n";
  }

  /** A message fits Telegram's limit exactly if its fixed parts do, with room for one
      character when there is a body; an unsubscribe address of up to 554 characters
      always leaves that. */
  method Render(subject: string, body: string, url: string) returns (text: string, ghost middle: string, ghost cut: nat)
    ensures text == Head(subject) + middle + Foot(url)
    ensures var fixed := |Head(subject)| + |Foot(url)|;
            IsCut(body, if fixed <= MAX_TEXT then MAX_TEXT - fixed else 0, middle, cut)
    ensures IsSubject(subject, Head(subject))
    ensures |text| <= MAX_TEXT <==> |Head(subject)| + |Foot(url)| + (if body == [] then 0 else 1) <= MAX_TEXT
    ensures |url| <= 554 ==> |text| <= MAX_TEXT
    ensures Head(subject) <= text
    ensures |text| >= |Foot(url)| && text[|text| - |Foot(url)|..] == Foot(url)
  {
    var head, foot := Head(subject), Foot(url);
    var budget := if |head| + |foot| <= MAX_TEXT then MAX_TEXT - (|head| + |foot|) else 0;
    var shown;
    shown, cut := EscapeWithin(body, budget);
    middle := shown;
    SubjectIs(subject);
    EscapedIsEntities(url);
    EntitiesLength(url);
    EscapedIsEntities(TruncateChars(subject, MAX_SUBJECT));
    EntitiesLength(TruncateChars(subject, MAX_SUBJECT));
    EscapedIsEntities(body);
    EntitiesLength(body);
    text := head + shown + foot;
  }
}
