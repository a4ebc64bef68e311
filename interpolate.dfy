/** Template interpolation (src/interpolate.ts).

    A template is filled from a map of variables: every `{ key }` token, with any
    number of spaces on either side of the key, whose key is a variable is replaced
    by that variable's value; everything else, including unknown tokens and `${...}`,
    is copied unchanged. Values are inserted verbatim and never scanned again. */
module Interpolation {
  import opened Wrappers
  import opened Strings

  type Vars = map<string, string>

  predicate IsWordChar(c: char) {
    ('a' <= c <= 'z') || ('A' <= c <= 'Z') || ('0' <= c <= '9') || c == '_' || c == '-'
  }

  /** A variable name as the action uses them (`name`, `version`, `os`, `arch`, `ext`):
      non-empty, and made of characters that mean nothing special inside a regular
      expression or a token. */
  predicate ValidKey(k: string) {
    k != "" && WordCharsFrom(k, 0)
  }

  /** Every character of `k` from index `i` on is a word character. */
  predicate WordCharsFrom(k: string, i: nat)
    decreases |k| - i
  {
    i >= |k| || (IsWordChar(k[i]) && WordCharsFrom(k, i + 1))
  }

  lemma {:induction false} WordCharAt(k: string, i: nat, j: nat)
    requires WordCharsFrom(k, i) && i <= j < |k|
    ensures IsWordChar(k[j])
    decreases j - i
  {
    if i < j {
      WordCharAt(k, i + 1, j);
    }
  }

  predicate ValidVars(vars: Vars) {
    forall k | k in vars :: ValidKey(k)
  }

  /** A token `{`, `lead` spaces, the key, `trail` spaces, `}`. */
  datatype Slot = Slot(lead: nat, key: string, trail: nat) {
    /** What lies between the braces. */
    function Body(): string {
      Spaces(lead) + key + Spaces(trail)
    }

    function Text(): string {
      "{" + Body() + "}"
    }

    function Length(): nat {
      lead + |key| + trail + 2
    }
  }

  /** Any text made of `n` spaces is `Spaces(n)`. */
  lemma AllSpaces(s: string, n: nat)
    requires |s| == n && forall i | 0 <= i < n :: s[i] == ' '
    ensures s == Spaces(n)
  {
  }

  lemma LeadingSplit(s: string)
    ensures s[..LeadingSpaces(s)] == Spaces(LeadingSpaces(s))
  {
    AllSpaces(s[..LeadingSpaces(s)], LeadingSpaces(s));
  }

  lemma TrailingSplit(s: string)
    ensures s == s[..|s| - TrailingSpaces(s)] + Spaces(TrailingSpaces(s))
  {
    SpacesSuffix(s, TrailingSpaces(s));
  }

  /** A text that ends with `n` spaces is its first `|s| - n` characters and those spaces. */
  lemma SpacesSuffix(s: string, n: nat)
    requires n <= |s| && forall i | |s| - n <= i < |s| :: s[i] == ' '
    ensures s == s[..|s| - n] + Spaces(n)
  {
    var k := |s| - n;
    var tail := s[k..];
    forall i | 0 <= i < n ensures tail[i] == ' ' {
      assert tail[i] == s[k + i];
    }
    AllSpaces(tail, n);
    assert s == s[..k] + tail;
  }

  lemma JoinSplit(s: string, lead: nat, key: string, sp: string)
    requires lead <= |s|
    requires s[..lead] == Spaces(lead)
    requires s[lead..] == key + sp
    ensures Spaces(lead) + key + sp == s
  {
    assert s == s[..lead] + s[lead..];
  }

  /** The text between the braces of a token, split into its leading spaces, its key
      and its trailing spaces. */
  function Trim(inner: string): (t: Slot)
    ensures Spaces(t.lead) + t.key + Spaces(t.trail) == inner
  {
    var lead := LeadingSpaces(inner);
    var rest := inner[lead..];
    var trail := TrailingSpaces(rest);
    var key := rest[..|rest| - trail];
    LeadingSplit(inner);
    TrailingSplit(rest);
    JoinSplit(inner, lead, key, Spaces(trail));
    Slot(lead, key, trail)
  }

  /** A key cut out of a text without `}` has no `}` either. */
  lemma NoCloseInKey(inner: string, t: Slot)
    requires '}' !in inner
    requires Spaces(t.lead) + t.key + Spaces(t.trail) == inner
    ensures '}' !in t.key
  {
    forall i | 0 <= i < |t.key| ensures t.key[i] != '}' {
      assert inner[t.lead + i] == t.key[i];
    }
  }

  /** `s` starts with `{`, then `inner`, then `}`. */
  lemma Braced(s: string, j: nat, t: Slot)
    requires j + 2 <= |s| && s[0] == '{' && s[j + 1] == '}'
    requires Spaces(t.lead) + t.key + Spaces(t.trail) == s[1..1 + j]
    ensures s[..t.Length()] == t.Text()
  {
    assert s[..j + 2] == "{" + s[1..1 + j] + "}";
  }

  /** The token `s` starts with, if any, whatever its key: from `{` to the first `}`,
      the key being what lies between them with the spaces on either side removed. */
  function TokenAt(s: string): (r: Option<Slot>)
    ensures r.Some? ==> r.value.Length() <= |s| && s[..r.value.Length()] == r.value.Text()
    ensures r.Some? ==> '}' !in r.value.key
  {
    if s == [] || s[0] != '{' then None
    else match IndexOf(s[1..], '}')
      case None => None
      case Some(j) =>
        var t := Trim(s[1..1 + j]);
        Braced(s, j, t);
        assert s[1..][..j] == s[1..1 + j];
        NoCloseInKey(s[1..1 + j], t);
        Some(t)
  }

  /** The token `s` starts with when its key is a variable: what the source's regular
      expression `{ *(k1|k2|...) *}` matches at that position. */
  function SlotAt(s: string, vars: Vars): (r: Option<Slot>)
    ensures r.Some? ==> r.value.key in vars && r.value.Length() <= |s| && s[..r.value.Length()] == r.value.Text()
  {
    match TokenAt(s)
    case Some(t) => if t.key in vars then Some(t) else None
    case None => None
  }

  /** The template with every matched token replaced by its value, scanning left to
      right. Text without `{`, and any text when there are no variables, is returned
      as it is. */
  function Interpolate(s: string, vars: Vars): (r: string)
    ensures '{' !in s ==> r == s
    ensures vars == map[] ==> r == s
    decreases |s|
  {
    if s == [] then ""
    else
      NothingToMatch(s, vars);
      match SlotAt(s, vars)
      case Some(t) => vars[t.key] + Interpolate(s[t.Length()..], vars)
      case None => [s[0]] + Interpolate(s[1..], vars)
  }

  /** No token matches where the text does not start with `{`, nor when there are no
      variables; past a first character that is not `{`, there is still none. */
  lemma NothingToMatch(s: string, vars: Vars)
    requires s != []
    ensures s[0] != '{' || vars == map[] ==> SlotAt(s, vars).None?
    ensures '{' !in s ==> '{' !in s[1..] && s == [s[0]] + s[1..]
  {
    if '{' !in s {
      assert s[0] in s;
    }
  }

  /** The body of a token with a valid key has no brace in it. */
  lemma BodyBraceFree(t: Slot)
    requires ValidKey(t.key)
    ensures '{' !in t.Body() && '}' !in t.Body()
  {
    var body := t.Body();
    forall i | 0 <= i < |body| ensures body[i] != '{' && body[i] != '}' {
      if t.lead <= i < t.lead + |t.key| {
        assert body[i] == t.key[i - t.lead];
        WordCharAt(t.key, 0, i - t.lead);
      }
    }
  }

  /** Trimming the body of a token with a valid key gives back the token. */
  lemma TrimBody(t: Slot)
    requires ValidKey(t.key)
    ensures Trim(t.Body()) == t
  {
    var body := t.Body();
    BodyLead(t);
    var tail := body[t.lead..];
    assert tail == t.key + Spaces(t.trail);
    KeyTrail(t.key, t.trail);
    assert tail[..|tail| - t.trail] == t.key;
  }

  /** The spaces a token body starts with are its leading spaces. */
  lemma BodyLead(t: Slot)
    requires ValidKey(t.key)
    ensures LeadingSpaces(t.Body()) == t.lead
  {
    var body := t.Body();
    WordCharAt(t.key, 0, 0);
    assert body[t.lead] == t.key[0];
    assert forall i | 0 <= i < t.lead :: body[i] == ' ';
  }

  /** The spaces a valid key followed by `trail` spaces ends with are those spaces. */
  lemma KeyTrail(key: string, trail: nat)
    requires ValidKey(key)
    ensures TrailingSpaces(key + Spaces(trail)) == trail
  {
    var tail := key + Spaces(trail);
    WordCharAt(key, 0, |key| - 1);
    assert tail[|tail| - trail - 1] == key[|key| - 1];
    assert forall i | |tail| - trail <= i < |tail| :: tail[i] == ' ';
  }

  /** One step of the scan at a position where no token matches. */
  lemma StepChar(s: string, vars: Vars)
    requires s != [] && SlotAt(s, vars).None?
    ensures Interpolate(s, vars) == [s[0]] + Interpolate(s[1..], vars)
  {
  }

  /** TokenAt when the first `}` is `j` characters after the `{`. */
  lemma TokenAtClose(s: string, j: nat)
    requires s != [] && s[0] == '{' && IndexOf(s[1..], '}') == Some(j)
    ensures TokenAt(s) == Some(Trim(s[1..1 + j]))
  {
  }

  /** A spelled-out token with a valid key is recognised as exactly that token. */
  lemma TokenAtText(t: Slot, rest: string)
    requires ValidKey(t.key)
    ensures TokenAt(t.Text() + rest) == Some(t)
  {
    BodyBraceFree(t);
    TokenAtBraced(t.Body(), rest);
    TrimBody(t);
  }

  /** At `{`, a body without `}`, and `}`, the token is the trimmed body. */
  lemma TokenAtBraced(body: string, rest: string)
    requires '}' !in body
    ensures TokenAt("{" + body + "}" + rest) == Some(Trim(body))
  {
    var s := "{" + body + "}" + rest;
    BracedShape(body, rest);
    IndexOfAfter(body, '}', rest);
    TokenAtClose(s, |body|);
  }

  /** The layout of `{`, a body and `}` in front of the rest of a text, spelled out
      for the solver. */
  lemma BracedShape(body: string, rest: string)
    ensures ("{" + body + "}" + rest)[0] == '{'
    ensures ("{" + body + "}" + rest)[1..] == body + ['}'] + rest
    ensures ("{" + body + "}" + rest)[1..1 + |body|] == body
  {
  }

  /** A token whose key is a variable is replaced by the value, which is not scanned
      again; scanning resumes right after the token. */
  lemma TokenReplaced(t: Slot, rest: string, vars: Vars)
    requires ValidKey(t.key) && t.key in vars
    ensures Interpolate(t.Text() + rest, vars) == vars[t.key] + Interpolate(rest, vars)
  {
    TokenAtText(t, rest);
    assert (t.Text() + rest)[t.Length()..] == rest;
  }

  /** Text without `{` is copied unchanged. */
  lemma {:induction false} BraceFreeKept(p: string, s: string, vars: Vars)
    requires '{' !in p
    ensures Interpolate(p + s, vars) == p + Interpolate(s, vars)
  {
    if p != [] {
      var ps := p + s;
      assert p[0] in p;
      assert ps[0] == p[0];
      assert SlotAt(ps, vars).None?;
      StepChar(ps, vars);
      assert ps[1..] == p[1..] + s;
      BraceFreeKept(p[1..], s, vars);
      assert p == [p[0]] + p[1..];
    } else {
      assert p + s == s;
    }
  }

  /** A token whose key is not a variable is left byte for byte. */
  lemma UnknownTokenKept(t: Slot, rest: string, vars: Vars)
    requires ValidKey(t.key) && t.key !in vars
    ensures Interpolate(t.Text() + rest, vars) == t.Text() + Interpolate(rest, vars)
  {
    UnknownTokenSkipped(t, rest, vars);
    BodyBraceFree(t);
    var body := t.Body() + "}";
    assert '{' !in body;
    BraceFreeKept(body, rest, vars);
    Regroup(t.Body(), Interpolate(rest, vars));
  }

  /** The `{` of a token whose key is not a variable is copied, and the scan goes on
      right after it. */
  lemma UnknownTokenSkipped(t: Slot, rest: string, vars: Vars)
    requires ValidKey(t.key) && t.key !in vars
    ensures Interpolate(t.Text() + rest, vars) == ['{'] + Interpolate((t.Body() + "}") + rest, vars)
  {
    var s := t.Text() + rest;
    TokenAtText(t, rest);
    UnknownSlotNone(s, t, vars);
    StepChar(s, vars);
    BracedTail(t.Body(), rest);
  }

  /** A token whose key is not a variable does not match. */
  lemma UnknownSlotNone(s: string, t: Slot, vars: Vars)
    requires TokenAt(s) == Some(t) && t.key !in vars
    ensures SlotAt(s, vars).None?
  {
  }

  /** Regroups what follows the `{` of a token, for the solver. */
  lemma BracedTail(body: string, rest: string)
    ensures ("{" + body + "}" + rest)[1..] == (body + "}") + rest
  {
  }

  /** Regroups a concatenation for the solver. */
  lemma Regroup(b: string, x: string)
    ensures ['{'] + ((b + "}") + x) == "{" + b + "}" + x
  {
  }

  /** A template in which no position starts a matched token is returned unchanged. */
  lemma {:induction false} NoMatchIdentity(s: string, vars: Vars)
    requires forall i | 0 <= i < |s| :: SlotAt(s[i..], vars).None?
    ensures Interpolate(s, vars) == s
  {
    if s != [] {
      assert s[0..] == s;
      forall i | 0 <= i < |s| - 1 ensures SlotAt(s[1..][i..], vars).None? {
        assert s[1..][i..] == s[i + 1..];
      }
      NoMatchIdentity(s[1..], vars);
    }
  }

  /** With no variables at all, every template is returned unchanged. */
  lemma EmptyVarsIdentity(s: string)
    ensures Interpolate(s, map[]) == s
  {
    NoMatchIdentity(s, map[]);
  }

  /** A piece of a template: one literal character, or one token. */
  datatype Piece = Char(c: char) | Token(slot: Slot)

  /** The template text the pieces make up. */
  function Spell(ps: seq<Piece>): string {
    if ps == [] then ""
    else (match ps[0] case Char(c) => [c] case Token(t) => t.Text()) + Spell(ps[1..])
  }

  predicate KeysBound(ps: seq<Piece>, vars: Vars) {
    forall i | 0 <= i < |ps| && ps[i].Token? :: ps[i].slot.key in vars
  }

  /** The pieces with every token replaced by its variable's value. */
  function Fill(ps: seq<Piece>, vars: Vars): string
    requires KeysBound(ps, vars)
  {
    if ps == [] then ""
    else (match ps[0] case Char(c) => [c] case Token(t) => vars[t.key]) + Fill(ps[1..], vars)
  }

  /** `ps` splits `s`, without overlap, into literal characters and tokens of known
      keys, and is leftmost: no literal character starts a token of a known key. */
  predicate Decomposes(s: string, ps: seq<Piece>, vars: Vars) {
    && Spell(ps) == s
    && KeysBound(ps, vars)
    && forall i | 0 <= i < |ps| && ps[i].Char? :: SlotAt(Spell(ps[i..]), vars).None?
  }

  /** The decomposition the scan follows. */
  function Scan(s: string, vars: Vars): seq<Piece>
    decreases |s|
  {
    if s == [] then []
    else match SlotAt(s, vars)
      case Some(t) => [Token(t)] + Scan(s[t.Length()..], vars)
      case None => [Char(s[0])] + Scan(s[1..], vars)
  }

  lemma {:induction false} ScanDecomposes(s: string, vars: Vars)
    ensures Decomposes(s, Scan(s, vars), vars)
    decreases |s|
  {
    if s != [] {
      match SlotAt(s, vars)
      case Some(t) =>
        ScanDecomposes(s[t.Length()..], vars);
        ScanTokenStep(s, t, vars);
      case None =>
        ScanDecomposes(s[1..], vars);
        ScanCharStep(s, vars);
    }
  }

  lemma ScanTokenStep(s: string, t: Slot, vars: Vars)
    requires SlotAt(s, vars) == Some(t)
    requires Decomposes(s[t.Length()..], Scan(s[t.Length()..], vars), vars)
    ensures Decomposes(s, Scan(s, vars), vars)
  {
    var rest := s[t.Length()..];
    assert s == s[..t.Length()] + rest;
    ConsDecomposes(s, Token(t), rest, Scan(rest, vars), vars);
  }

  lemma ScanCharStep(s: string, vars: Vars)
    requires s != [] && SlotAt(s, vars).None?
    requires Decomposes(s[1..], Scan(s[1..], vars), vars)
    ensures Decomposes(s, Scan(s, vars), vars)
  {
    SpellChar(s[0]);
    assert s == [s[0]] + s[1..];
    assert Scan(s, vars) == [Char(s[0])] + Scan(s[1..], vars);
    ConsDecomposes(s, Char(s[0]), s[1..], Scan(s[1..], vars), vars);
  }

  lemma SpellChar(c: char)
    ensures Spell([Char(c)]) == [c]
  {
    assert [Char(c)][1..] == [];
  }

  /** A decomposition extended by one piece in front, where a literal character is
      only put in front at a position where no token matches. */
  lemma ConsDecomposes(s: string, p: Piece, rest: string, ps: seq<Piece>, vars: Vars)
    requires Decomposes(rest, ps, vars)
    requires s == Spell([p]) + rest
    requires p.Token? ==> p.slot.key in vars
    requires p.Char? ==> SlotAt(s, vars).None?
    ensures Decomposes(s, [p] + ps, vars)
  {
    var qs := [p] + ps;
    assert qs[1..] == ps;
    assert qs[0..] == qs;
    forall i | 1 <= i < |qs| ensures qs[i..] == ps[i - 1..] { }
  }

  /** Any leftmost decomposition of the template into characters and known tokens
      determines the output: it is the characters kept in order with each token
      replaced by its value. */
  lemma {:induction false} FillIsInterpolate(s: string, ps: seq<Piece>, vars: Vars)
    requires ValidVars(vars) && Decomposes(s, ps, vars)
    ensures Interpolate(s, vars) == Fill(ps, vars)
    decreases |ps|
  {
    if ps != [] {
      var tail := Spell(ps[1..]);
      forall i | 1 <= i < |ps| ensures ps[1..][i - 1..] == ps[i..] { }
      assert Decomposes(tail, ps[1..], vars);
      FillIsInterpolate(tail, ps[1..], vars);
      match ps[0]
      case Char(c) =>
        assert ps[0..] == ps;
        assert s[1..] == tail;
      case Token(t) =>
        TokenReplaced(t, tail, vars);
    }
  }

  /** Token `t` is spelled at the start of `x`. */
  predicate SpelledAt(x: string, t: Slot) {
    t.Length() <= |x| && x[..t.Length()] == t.Text()
  }

  /** The source's regular expression `{ *(k1|k2|...) *}`, built from the variables'
      keys, matches at the start of `x`: some token whose key is a variable is spelled
      there. */
  ghost predicate RegexMatchesAt(x: string, vars: Vars) {
    exists t: Slot :: t.key in vars && SpelledAt(x, t)
  }

  /** The scanner finds a token exactly where the regular expression matches. */
  lemma SlotAtIsRegexMatch(x: string, vars: Vars)
    requires ValidVars(vars)
    ensures SlotAt(x, vars).Some? <==> RegexMatchesAt(x, vars)
  {
    if SlotAt(x, vars).Some? {
      assert SpelledAt(x, SlotAt(x, vars).value);
    }
    if RegexMatchesAt(x, vars) {
      var t: Slot :| t.key in vars && SpelledAt(x, t);
      var rest := x[t.Length()..];
      assert x == t.Text() + rest;
      TokenAtText(t, rest);
    }
  }

  /** The scan's split is leftmost in the regular expression's own terms: the
      expression matches at no position the scan copies as a literal character. */
  lemma ScanIsRegexLeftmost(s: string, vars: Vars)
    requires ValidVars(vars)
    ensures var ps := Scan(s, vars);
      forall i | 0 <= i < |ps| && ps[i].Char? :: !RegexMatchesAt(Spell(ps[i..]), vars)
  {
    var ps := Scan(s, vars);
    ScanDecomposes(s, vars);
    forall i | 0 <= i < |ps| && ps[i].Char? ensures !RegexMatchesAt(Spell(ps[i..]), vars) {
      SlotAtIsRegexMatch(Spell(ps[i..]), vars);
    }
  }

  /** So the output is the concatenation of the untouched characters and the values of
      the matched tokens, matched left to right without overlap. */
  lemma InterpolateIsLeftmostFill(s: string, vars: Vars)
    requires ValidVars(vars)
    ensures Decomposes(s, Scan(s, vars), vars)
    ensures Interpolate(s, vars) == Fill(Scan(s, vars), vars)
  {
    ScanDecomposes(s, vars);
    FillIsInterpolate(s, Scan(s, vars), vars);
  }

  /** The keys the examples use are valid keys. */
  lemma KnownKeysValid()
    ensures ValidKey("name") && ValidKey("version") && ValidKey("os") && ValidKey("arch")
    ensures ValidKey("ext") && ValidKey("value") && ValidKey("unused") && ValidKey("this")
  {
  }

  /** Text, a known token, `/`, a known token, `/`, an unknown token: both known
      tokens are replaced and the unknown one is kept. */
  lemma ThreeTokens(prefix: string, name: Slot, value: Slot, unused: Slot, vars: Vars)
    requires '{' !in prefix
    requires ValidKey(name.key) && name.key in vars && ValidKey(value.key) && value.key in vars
    requires ValidKey(unused.key) && unused.key !in vars
    ensures Interpolate(prefix + name.Text() + "/" + value.Text() + "/" + unused.Text(), vars)
         == prefix + (vars[name.key] + ("/" + (vars[value.key] + ("/" + (unused.Text() + "")))))
  {
    var r3 := unused.Text() + "";
    var r2 := value.Text() + ("/" + r3);
    var r1 := name.Text() + ("/" + r2);
    assert prefix + name.Text() + "/" + value.Text() + "/" + unused.Text() == prefix + r1;
    BraceFreeKept(prefix, r1, vars);
    KnownThenSlash(name, r2, vars);
    KnownThenSlash(value, r3, vars);
    UnknownTokenKept(unused, "", vars);
  }

  /** A known token followed by `/`: the value, the `/`, then the rest filled. */
  lemma KnownThenSlash(t: Slot, rest: string, vars: Vars)
    requires ValidKey(t.key) && t.key in vars
    ensures Interpolate(t.Text() + ("/" + rest), vars) == vars[t.key] + ("/" + Interpolate(rest, vars))
  {
    TokenReplaced(t, "/" + rest, vars);
    BraceFreeKept("/", rest, vars);
  }

  /** A value that itself looks like a token is inserted literally: one pass only. */
  lemma SinglePass()
    ensures Interpolate("{a}", map["a" := "{b}", "b" := "x"]) == "{b}"
  {
    var t := Slot(0, "a", 0);
    assert t.Text() == "{a}";
    assert "{a}" == t.Text() + "";
    TokenReplaced(t, "", map["a" := "{b}", "b" := "x"]);
  }
}
