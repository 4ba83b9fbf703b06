/**
 * Command templates. The source stores an operation's command as a string
 * such as `arch-cli token burn {account-address} {amount} --owner {owner}`,
 * in which `{name}` marks the place of parameter `name`. The model holds the
 * same string as a sequence of literal pieces and placeholders; `Text` gives
 * back the stored string, and `Parse` recovers the pieces from any string,
 * so nothing is lost either way (ParseText, TextParse).
 *
 * The main fact proved here (ReplaceFirstFills) is what makes the engine's
 * string replacement predictable: on such a string, replacing the first
 * occurrence of `{name}` is the same as filling the first `name` placeholder.
 */
module CommandTemplate {
  import opened Wrappers
  import opened JsString

  datatype Template =
    | End
    | Lit(text: string, rest: Template)
    | Hole(name: string, rest: Template)

  /** The placeholder token for `name`. */
  function Token(name: string): (tok: string)
    ensures |tok| == |name| + 2 && tok[0] == '{' && tok[|tok| - 1] == '}'
    ensures tok[1..|tok| - 1] == name
  {
    "{" + name + "}"
  }

  /** The template as the string the source stores. */
  function Text(t: Template): string {
    match t
    case End => ""
    case Lit(s, r) => s + Text(r)
    case Hole(n, r) => Token(n) + Text(r)
  }

  /** The placeholder names, in template order. */
  function Names(t: Template): seq<string> {
    match t
    case End => []
    case Lit(_, r) => Names(r)
    case Hole(n, r) => [n] + Names(r)
  }

  predicate BraceFree(s: string) {
    '{' !in s && '}' !in s
  }

  /**
   * Literal pieces hold no `{` and placeholder names no brace, so every `{`
   * in the text opens a placeholder token.
   */
  predicate Searchable(t: Template) {
    match t
    case End => true
    case Lit(s, r) => '{' !in s && Searchable(r)
    case Hole(n, r) => BraceFree(n) && Searchable(r)
  }

  /**
   * The canonical form `Parse` produces for a string whose every `{` opens a
   * token: searchable, literal pieces non-empty and never two in a row.
   */
  predicate WellFormed(t: Template) {
    match t
    case End => true
    case Lit(s, r) => s != "" && '{' !in s && !r.Lit? && WellFormed(r)
    case Hole(n, r) => BraceFree(n) && WellFormed(r)
  }

  lemma WellFormedIsSearchable(t: Template)
    requires WellFormed(t)
    ensures Searchable(t)
  {
  }

  // ---------------------------------------------------------------------
  // Parsing a stored string back into pieces
  // ---------------------------------------------------------------------

  /** The index of the first `}` at or after `i`, provided no `{` comes before it. */
  function CloseFrom(s: string, i: nat): (r: Option<nat>)
    requires i <= |s|
    ensures r.Some? ==> i <= r.value < |s| && s[r.value] == '}'
    ensures r.Some? ==> forall k :: i <= k < r.value ==> s[k] != '{' && s[k] != '}'
    ensures r.None? ==> forall k :: i <= k < |s| ==> s[k] != '}' || exists m :: i <= m < k && s[m] == '{'
    decreases |s| - i
  {
    if i == |s| || s[i] == '{' then None
    else if s[i] == '}' then Some(i)
    else CloseFrom(s, i + 1)
  }

  /** A token starts `s`: the index of the `}` that closes it. */
  function TokenEnd(s: string): (r: Option<nat>)
    ensures r.Some? ==> 1 <= r.value < |s| && s[0] == '{' && s[r.value] == '}'
    ensures r.Some? ==> BraceFree(s[1..r.value])
  {
    if |s| > 0 && s[0] == '{' then
      var r := CloseFrom(s, 1);
      if r.Some? then
        assert forall k :: 0 <= k < r.value - 1 ==> s[1..r.value][k] == s[k + 1];
        r
      else None
    else None
  }

  /** The length of the literal piece `s` starts with: up to the next token, at least one character. */
  function LiteralLength(s: string, n: nat): (k: nat)
    requires 1 <= n <= |s|
    ensures n <= k <= |s|
    ensures k < |s| ==> TokenEnd(s[k..]).Some?
    ensures forall m :: n <= m < k ==> TokenEnd(s[m..]).None?
    decreases |s| - n
  {
    if n == |s| || TokenEnd(s[n..]).Some? then n else LiteralLength(s, n + 1)
  }

  /** The pieces of a stored command string. Every string has one (TextParse). */
  function Parse(s: string): Template
    decreases |s|
  {
    if |s| == 0 then End
    else match TokenEnd(s)
      case Some(k) => Hole(s[1..k], Parse(s[k + 1..]))
      case None =>
        var n := LiteralLength(s, 1);
        Lit(s[..n], Parse(s[n..]))
  }

  /** The placeholders of a stored command string, in order. */
  function Placeholders(s: string): seq<string> {
    Names(Parse(s))
  }

  /** Parsing loses nothing: the pieces spell the string. */
  lemma {:induction false} TextParse(s: string)
    ensures Text(Parse(s)) == s
    decreases |s|
  {
    if |s| > 0 {
      match TokenEnd(s)
      case Some(k) =>
        TextParse(s[k + 1..]);
        TextParseHole(s, k);
      case None =>
        var n := LiteralLength(s, 1);
        TextParse(s[n..]);
        TextParseLit(s, n);
    }
  }

  /** A string opening with a token spells that token and then the rest. */
  lemma TextParseHole(s: string, k: nat)
    requires TokenEnd(s) == Some(k) && Text(Parse(s[k + 1..])) == s[k + 1..]
    ensures Text(Parse(s)) == s
  {
    assert Parse(s) == Hole(s[1..k], Parse(s[k + 1..]));
    TokenSpan(s, k);
  }

  /** The characters from a `{` at the start to a `}` at `k` are the token of what lies between. */
  lemma TokenSpan(s: string, k: nat)
    requires 1 <= k < |s| && s[0] == '{' && s[k] == '}'
    ensures Token(s[1..k]) + s[k + 1..] == s
  {
    assert Token(s[1..k]) == s[..k + 1];
    assert s == s[..k + 1] + s[k + 1..];
  }

  /** A string opening with a literal piece spells that piece and then the rest. */
  lemma TextParseLit(s: string, n: nat)
    requires |s| > 0 && TokenEnd(s).None? && n == LiteralLength(s, 1) && Text(Parse(s[n..])) == s[n..]
    ensures Text(Parse(s)) == s
  {
    assert Parse(s) == Lit(s[..n], Parse(s[n..]));
    LiteralSpan(s, n, Parse(s[n..]));
  }

  /** A literal piece cut from the front of `s`, followed by what spells the rest, spells `s`. */
  lemma LiteralSpan(s: string, n: nat, rest: Template)
    requires n <= |s| && Text(rest) == s[n..]
    ensures Text(Lit(s[..n], rest)) == s
  {
    assert s == s[..n] + s[n..];
  }

  /** The token of a brace-free name, followed by anything, is read back as that name. */
  lemma TokenEndOfToken(n: string, rest: string)
    requires BraceFree(n)
    ensures TokenEnd(Token(n) + rest) == Some(|n| + 1)
  {
    var s := Token(n) + rest;
    assert forall k :: 1 <= k <= |n| ==> s[k] == n[k - 1];
    assert s[|n| + 1] == '}';
    CloseAtFirst(s, 1, |n| + 1);
  }

  lemma {:induction false} CloseAtFirst(s: string, i: nat, c: nat)
    requires i <= c < |s| && s[c] == '}'
    requires forall k :: i <= k < c ==> s[k] != '{' && s[k] != '}'
    ensures CloseFrom(s, i) == Some(c)
    decreases c - i
  {
    if i < c {
      CloseAtFirst(s, i + 1, c);
    }
  }

  /** A string starting with something other than `{` opens no token. */
  lemma NoTokenWithoutBrace(s: string)
    requires |s| == 0 || s[0] != '{'
    ensures TokenEnd(s).None?
  {
  }

  /** On a well-formed template, parsing its text gives the template back. */
  lemma {:induction false} ParseText(t: Template)
    requires WellFormed(t)
    ensures Parse(Text(t)) == t
  {
    match t
    case End =>
    case Hole(n, r) =>
      var s := Text(t);
      TokenEndOfToken(n, Text(r));
      assert s[1..|n| + 1] == n;
      assert s[|n| + 2..] == Text(r);
      ParseText(r);
    case Lit(p, r) =>
      var s := Text(t);
      assert s[0] == p[0];
      NoTokenWithoutBrace(s);
      LiteralOfText(p, r);
      assert s[..|p|] == p;
      assert s[|p|..] == Text(r);
      ParseText(r);
  }

  /** A literal piece is read back whole: no token starts inside it, one (or the end) follows it. */
  lemma LiteralOfText(p: string, r: Template)
    requires p != "" && '{' !in p && !r.Lit? && WellFormed(r)
    ensures LiteralLength(p + Text(r), 1) == |p|
  {
    var s := p + Text(r);
    forall m | 1 <= m < |p| ensures TokenEnd(s[m..]).None? {
      assert s[m..][0] == p[m];
      NoTokenWithoutBrace(s[m..]);
    }
    if r.Hole? {
      assert s[|p|..] == Token(r.name) + Text(r.rest);
      TokenEndOfToken(r.name, Text(r.rest));
    }
    LiteralLengthIs(s, 1, |p|);
  }

  lemma {:induction false} LiteralLengthIs(s: string, n: nat, k: nat)
    requires 1 <= n <= k <= |s|
    requires k < |s| ==> TokenEnd(s[k..]).Some?
    requires forall m :: n <= m < k ==> TokenEnd(s[m..]).None?
    ensures LiteralLength(s, n) == k
    decreases k - n
  {
    if n < k {
      LiteralLengthIs(s, n + 1, k);
    }
  }

  // ---------------------------------------------------------------------
  // Replacing a token in the text is filling a placeholder
  // ---------------------------------------------------------------------

  /** The template with its first `name` placeholder replaced by the literal `value`. */
  function Fill(t: Template, name: string, value: string): Template {
    match t
    case End => End
    case Lit(s, r) => Lit(s, Fill(r, name, value))
    case Hole(n, r) => if n == name then Lit(value, r) else Hole(n, Fill(r, name, value))
  }

  /** Filling with a value that holds no `{` keeps every `{` an opening of a token. */
  lemma {:induction false} FillSearchable(t: Template, name: string, value: string)
    requires Searchable(t) && '{' !in value
    ensures Searchable(Fill(t, name, value))
  {
    match t
    case End =>
    case Lit(_, r) => FillSearchable(r, name, value);
    case Hole(n, r) => if n != name { FillSearchable(r, name, value); }
  }

  /** Filling removes the first `name` placeholder and leaves the others in order. */
  lemma {:induction false} FillNames(t: Template, name: string, value: string)
    ensures Names(Fill(t, name, value)) == RemoveFirst(Names(t), name)
  {
    match t
    case End =>
    case Lit(_, r) => FillNames(r, name, value);
    case Hole(n, r) => if n != name { FillNames(r, name, value); }
  }

  /** `names` without the first occurrence of `x`. */
  function RemoveFirst(names: seq<string>, x: string): (r: seq<string>)
    ensures x !in names ==> r == names
    ensures forall y :: y != x ==> (y in r <==> y in names)
  {
    if |names| == 0 then []
    else if names[0] == x then names[1..]
    else [names[0]] + RemoveFirst(names[1..], x)
  }

  /** One differing character rules out a match at `j`. */
  lemma DiffersAt(s: string, pat: string, j: nat, d: nat)
    requires d < |pat| && j + d < |s| && s[j + d] != pat[d]
    ensures !MatchAt(s, pat, j)
  {
    if j + |pat| <= |s| {
      assert s[j..j + |pat|][d] == s[j + d];
    }
  }

  /** No occurrence of `{name}` starts inside a literal piece that holds no `{`. */
  lemma NoMatchInLiteral(s: string, rest: string, name: string)
    requires '{' !in s
    ensures forall j: nat :: j < |s| ==> !MatchAt(s + rest, Token(name), j)
  {
    forall j: nat | j < |s| ensures !MatchAt(s + rest, Token(name), j) {
      assert (s + rest)[j] == s[j];
      DiffersAt(s + rest, Token(name), j, 0);
    }
  }

  /** No occurrence of `{name}` starts inside the token of a different brace-free name. */
  lemma NoMatchInOtherToken(n: string, rest: string, name: string)
    requires BraceFree(n) && BraceFree(name) && n != name
    ensures forall j: nat :: j < |Token(n)| ==> !MatchAt(Token(n) + rest, Token(name), j)
  {
    var s := Token(n) + rest;
    var tok := Token(name);
    assert forall k :: 1 <= k <= |n| ==> s[k] == n[k - 1];
    assert forall k :: 1 <= k <= |name| ==> tok[k] == name[k - 1];
    forall j: nat | j < |Token(n)| ensures !MatchAt(s, tok, j) {
      if j > 0 {
        DiffersAt(s, tok, j, 0);
      } else if |name| == |n| {
        assert exists i :: 0 <= i < |n| && n[i] != name[i];
        var i :| 0 <= i < |n| && n[i] != name[i];
        DiffersAt(s, tok, 0, i + 1);
      } else if |name| < |n| {
        DiffersAt(s, tok, 0, |name| + 1);
      } else {
        DiffersAt(s, tok, 0, |n| + 1);
      }
    }
  }

  /**
   * On a searchable template, replacing the first occurrence of `{name}` in
   * its text gives the text of the template with its first `name`
   * placeholder filled; with no such placeholder the text is unchanged.
   */
  lemma {:induction false} ReplaceFirstFills(t: Template, name: string, value: string)
    requires Searchable(t) && BraceFree(name)
    ensures ReplaceFirst(Text(t), Token(name), value) == Text(Fill(t, name, value))
  {
    match t
    case End =>
      ReplaceFirstNoMatch("", Token(name), value);
    case Lit(s, r) =>
      NoMatchInLiteral(s, Text(r), name);
      ReplaceFirstSkip(s, Text(r), Token(name), value);
      ReplaceFirstFills(r, name, value);
    case Hole(n, r) =>
      if n == name {
        ReplaceFirstAt("", Token(name), Text(r), value);
        assert "" + Token(name) + Text(r) == Text(t);
        assert "" + value + Text(r) == Text(Fill(t, name, value));
      } else {
        NoMatchInOtherToken(n, Text(r), name);
        ReplaceFirstSkip(Token(n), Text(r), Token(name), value);
        ReplaceFirstFills(r, name, value);
      }
  }

  /** Filling a name the template has no placeholder for changes nothing. */
  lemma {:induction false} FillWithoutPlaceholder(t: Template, name: string, value: string)
    requires name !in Names(t)
    ensures Fill(t, name, value) == t
  {
    match t
    case End =>
    case Lit(_, r) => FillWithoutPlaceholder(r, name, value);
    case Hole(_, r) => FillWithoutPlaceholder(r, name, value);
  }

  /** Every placeholder shows up as its token in the text, at index `i`. */
  lemma {:induction false} PlaceholderInText(t: Template, name: string) returns (i: nat)
    requires name in Names(t)
    ensures MatchAt(Text(t), Token(name), i)
  {
    match t
    case Lit(s, r) =>
      var k := PlaceholderInText(r, name);
      MatchAtShift(s, Text(r), Token(name), k);
      i := |s| + k;
    case Hole(n, r) =>
      if n == name {
        assert Text(t)[..|Token(name)|] == Token(name);
        i := 0;
      } else {
        var k := PlaceholderInText(r, name);
        MatchAtShift(Token(n), Text(r), Token(name), k);
        i := |Token(n)| + k;
      }
  }

  /**
   * On a searchable template, the text contains the token `{name}` exactly
   * when the template has a `name` placeholder.
   */
  lemma TokenInTextIff(t: Template, name: string)
    requires Searchable(t) && BraceFree(name)
    ensures Includes(Text(t), Token(name)) <==> name in Names(t)
  {
    IncludesIff(Text(t), Token(name));
    if name in Names(t) {
      var i := PlaceholderInText(t, name);
    } else {
      FillWithoutPlaceholder(t, name, "");
      ReplaceFirstFills(t, name, "");
      ReplaceFirstUnchanged(Text(t), Token(name));
    }
  }

  // ---------------------------------------------------------------------
  // Bookkeeping on placeholder names
  // ---------------------------------------------------------------------

  /** No name occurs twice. */
  predicate Distinct(names: seq<string>) {
    forall i, j :: 0 <= i < j < |names| ==> names[i] != names[j]
  }

  /** The names of `names` that are not in `gone`, in order. */
  function Drop(names: seq<string>, gone: seq<string>): (r: seq<string>)
    ensures forall x :: x in r <==> x in names && x !in gone
    ensures |r| <= |names|
  {
    if |names| == 0 then []
    else (if names[0] in gone then [] else [names[0]]) + Drop(names[1..], gone)
  }

  lemma {:induction false} DropDistinct(names: seq<string>, gone: seq<string>)
    requires Distinct(names)
    ensures Distinct(Drop(names, gone))
  {
    if |names| > 0 {
      DropDistinct(names[1..], gone);
      assert names[0] !in names[1..];
    }
  }

  /** On distinct names, removing the first occurrence is dropping the name. */
  lemma {:induction false} RemoveFirstIsDrop(names: seq<string>, x: string)
    requires Distinct(names)
    ensures RemoveFirst(names, x) == Drop(names, [x])
  {
    if |names| > 0 {
      if names[0] == x {
        assert x !in names[1..];
        DropNothing(names[1..], [x]);
      } else {
        RemoveFirstIsDrop(names[1..], x);
      }
    }
  }

  lemma {:induction false} DropNothing(names: seq<string>, gone: seq<string>)
    requires forall x :: x in names ==> x !in gone
    ensures Drop(names, gone) == names
  {
    if |names| > 0 {
      DropNothing(names[1..], gone);
    }
  }

  /** Dropping in two rounds is dropping once. */
  lemma {:induction false} DropTwice(names: seq<string>, gone: seq<string>, more: seq<string>)
    ensures Drop(Drop(names, gone), more) == Drop(names, gone + more)
  {
    if |names| > 0 {
      DropTwice(names[1..], gone, more);
      var head := if names[0] in gone then [] else [names[0]];
      DropConcat(head, Drop(names[1..], gone), more);
    }
  }

  lemma {:induction false} DropConcat(a: seq<string>, b: seq<string>, gone: seq<string>)
    ensures Drop(a + b, gone) == Drop(a, gone) + Drop(b, gone)
  {
    if |a| > 0 {
      var head := if a[0] in gone then [] else [a[0]];
      assert (a + b)[0] == a[0];
      assert (a + b)[1..] == a[1..] + b;
      DropConcat(a[1..], b, gone);
      Regroup(head, Drop(a[1..], gone), Drop(b, gone), Drop(a + b, gone), Drop(a, gone));
    } else {
      assert a + b == b;
    }
  }

  lemma Regroup(head: seq<string>, p: seq<string>, q: seq<string>, whole: seq<string>, front: seq<string>)
    requires whole == head + (p + q) && front == head + p
    ensures whole == front + q
  {
  }
}
