/** JSON values and JSON Pointers (RFC 6901). */
module Json {
  import opened Wrappers

  /** Objects are maps: the serializer orders keys by itself. Numbers are kept as their text. */
  datatype Json =
    | Null
    | Bool(b: bool)
    | Number(text: string)
    | Str(s: string)
    | Arr(items: seq<Json>)
    | Obj(fields: map<string, Json>)

  // ---- the grammar of section 3 of RFC 6901 ----

  /** One character of a reference token: unescaped, `~0` or `~1`. */
  datatype Part = Plain(c: char) | Tilde | Slash

  predicate WellFormed(part: Part) { part.Plain? ==> part.c != '/' && part.c != '~' }

  function Written(part: Part): string
  {
    match part
    case Plain(c) => [c]
    case Tilde => "~0"
    case Slash => "~1"
  }

  /** The character a part stands for, by section 4 of RFC 6901. */
  function Meant(part: Part): char
  {
    match part
    case Plain(c) => c
    case Tilde => '~'
    case Slash => '/'
  }

  type Token = seq<Part>

  predicate TokenOk(token: Token) { forall i | 0 <= i < |token| :: WellFormed(token[i]) }

  predicate TokensOk(tokens: seq<Token>) { forall i | 0 <= i < |tokens| :: TokenOk(tokens[i]) }

  function WrittenToken(token: Token): string
  {
    if token == [] then "" else Written(token[0]) + WrittenToken(token[1..])
  }

  function MeantToken(token: Token): string { if token == [] then "" else [Meant(token[0])] + MeantToken(token[1..]) }

  function WrittenPointer(tokens: seq<Token>): string
  {
    if tokens == [] then "" else "/" + WrittenToken(tokens[0]) + WrittenPointer(tokens[1..])
  }

  // ---- validate_pointer ----

  predicate EscapeAt(p: string, i: nat)
    requires i < |p|
  {
    p[i] == '~' ==> i + 1 < |p| && (p[i + 1] == '0' || p[i + 1] == '1')
  }

  predicate ValidPointer(p: string)
  {
    (p == "" || p[0] == '/') && forall i | 0 <= i < |p| :: EscapeAt(p, i)
  }

  predicate Escapes(p: string) { forall i | 0 <= i < |p| :: EscapeAt(p, i) }

  lemma EscapesTail(p: string, k: nat)
    requires Escapes(p) && k <= |p|
    ensures Escapes(p[k..])
  {
    assert forall i | 0 <= i < |p| - k :: p[k..][i] == p[k + i];
    forall i | 0 <= i < |p[k..]| ensures EscapeAt(p[k..], i) { assert EscapeAt(p, k + i); }
  }

  /** Splits a validated text into the first token and what starts at the next slash. */
  lemma {:induction false} ParseToken(p: string) returns (token: Token, rest: string)
    requires Escapes(p)
    ensures TokenOk(token) && p == WrittenToken(token) + rest && (rest == "" || rest[0] == '/') && Escapes(rest)
    ensures |rest| <= |p|
    decreases |p|
  {
    if p == "" || p[0] == '/' {
      token, rest := [], p;
      assert WrittenToken([]) + p == p;
    } else if p[0] == '~' {
      assert EscapeAt(p, 0);
      EscapesTail(p, 2);
      var tail;
      tail, rest := ParseToken(p[2..]);
      var part := if p[1] == '0' then Tilde else Slash;
      token := [part] + tail;
      assert token[1..] == tail && p[..2] == Written(part) && p == p[..2] + p[2..];
    } else {
      EscapesTail(p, 1);
      var tail;
      tail, rest := ParseToken(p[1..]);
      token := [Plain(p[0])] + tail;
      assert token[1..] == tail && p == [p[0]] + p[1..];
    }
  }

  /** Every accepted string is generated by the grammar. */
  lemma {:induction false} ParsePointer(p: string) returns (tokens: seq<Token>)
    requires ValidPointer(p)
    ensures TokensOk(tokens) && WrittenPointer(tokens) == p
    decreases |p|
  {
    if p == "" {
      tokens := [];
    } else {
      EscapesTail(p, 1);
      var token, rest := ParseToken(p[1..]);
      var tail := ParsePointer(rest);
      tokens := [token] + tail;
      assert tokens[1..] == tail && p == "/" + p[1..];
    }
  }

  lemma EscapesConcat(p: string, q: string)
    requires Escapes(p) && Escapes(q)
    ensures Escapes(p + q)
  {
    forall i | 0 <= i < |p + q| ensures EscapeAt(p + q, i) {
      if i < |p| { assert EscapeAt(p, i); } else { assert EscapeAt(q, i - |p|); }
    }
  }

  lemma {:induction false} TokenEscapes(token: Token)
    requires TokenOk(token)
    ensures Escapes(WrittenToken(token))
  {
    if token != [] {
      TokenEscapes(token[1..]);
      assert WellFormed(token[0]);
      EscapesConcat(Written(token[0]), WrittenToken(token[1..]));
    }
  }

  lemma {:induction false} PointerEscapes(tokens: seq<Token>)
    requires TokensOk(tokens)
    ensures Escapes(WrittenPointer(tokens))
  {
    if tokens != [] {
      PointerEscapes(tokens[1..]);
      TokenEscapes(tokens[0]);
      EscapesConcat("/", WrittenToken(tokens[0]));
      EscapesConcat("/" + WrittenToken(tokens[0]), WrittenPointer(tokens[1..]));
    }
  }

  /** validate_pointer accepts exactly the strings of the grammar. */
  lemma PointerGrammar(p: string)
    ensures ValidPointer(p) <==> exists tokens :: TokensOk(tokens) && WrittenPointer(tokens) == p
  {
    if ValidPointer(p) {
      var tokens := ParsePointer(p);
    }
    if tokens :| TokensOk(tokens) && WrittenPointer(tokens) == p {
      PointerEscapes(tokens);
    }
  }

  // ---- following a pointer ----

  /** str::replace of a two-character pattern by one character. */
  function Replace(s: string, a: char, b: char, with: char): string
  {
    if |s| < 2 then s
    else if s[0] == a && s[1] == b then [with] + Replace(s[2..], a, b, with)
    else [s[0]] + Replace(s[1..], a, b, with)
  }

  /** `~1` first, then `~0`. */
  function Unescape(s: string): string { Replace(Replace(s, '~', '1', '/'), '~', '0', '~') }

  /** A token once its `~1` are replaced. */
  function HalfWay(part: Part): string
  {
    match part
    case Plain(c) => [c]
    case Tilde => "~0"
    case Slash => "/"
  }

  function HalfWayToken(token: Token): string
  {
    if token == [] then "" else HalfWay(token[0]) + HalfWayToken(token[1..])
  }

  lemma ReplaceStep(s: string, a: char, b: char, with: char)
    requires s != "" && (|s| < 2 || s[0] != a || s[1] != b)
    ensures Replace(s, a, b, with) == [s[0]] + Replace(s[1..], a, b, with)
  {
  }

  lemma {:induction false} FirstReplace(token: Token)
    requires TokenOk(token)
    ensures Replace(WrittenToken(token), '~', '1', '/') == HalfWayToken(token)
  {
    if token != [] {
      FirstReplace(token[1..]);
      assert WellFormed(token[0]);
      var s, tail := WrittenToken(token), WrittenToken(token[1..]);
      match token[0]
      case Plain(c) =>
        assert s[1..] == tail;
        ReplaceStep(s, '~', '1', '/');
      case Tilde =>
        assert s[1..] == "0" + tail && s[2..] == tail && s[1..][1..] == tail;
        ReplaceStep(s, '~', '1', '/');
        ReplaceStep(s[1..], '~', '1', '/');
        assert "~" + ("0" + HalfWayToken(token[1..])) == "~0" + HalfWayToken(token[1..]);
      case Slash =>
        assert s[2..] == tail;
    }
  }

  lemma {:induction false} SecondReplace(token: Token)
    requires TokenOk(token)
    ensures Replace(HalfWayToken(token), '~', '0', '~') == MeantToken(token)
  {
    if token != [] {
      SecondReplace(token[1..]);
      assert WellFormed(token[0]);
      var s, tail := HalfWayToken(token), HalfWayToken(token[1..]);
      match token[0]
      case Tilde => assert s[2..] == tail;
      case _ =>
        assert s[1..] == tail;
        ReplaceStep(s, '~', '0', '~');
    }
  }

  /** The two replacements, in this order, give every token the meaning RFC 6901 gives it. */
  lemma UnescapeMeansToken(token: Token)
    requires TokenOk(token)
    ensures Unescape(WrittenToken(token)) == MeantToken(token)
  {
    FirstReplace(token);
    SecondReplace(token);
  }

  predicate IsDigit(c: char) { '0' <= c <= '9' }

  /** An array index: digits only, and no leading zero. */
  function Index(token: string): Option<nat>
  {
    if token == "" || (token[0] == '0' && |token| != 1) || !(forall i | 0 <= i < |token| :: IsDigit(token[i])) then None
    else Some(Decimal(token))
  }

  function DigitValue(c: char): nat
    requires IsDigit(c)
  {
    c as int - '0' as int
  }

  function Decimal(s: string): nat
    requires forall i | 0 <= i < |s| :: IsDigit(s[i])
  {
    if s == "" then 0 else 10 * Decimal(s[..|s| - 1]) + DigitValue(s[|s| - 1])
  }

  /** The value one token further down. */
  function Child(j: Json, token: string): Option<Json>
  {
    match j
    case Obj(fields) => if token in fields then Some(fields[token]) else None
    case Arr(items) => (match Index(token)
                        case Some(i) => if i < |items| then Some(items[i]) else None
                        case None => None)
    case _ => None
  }

  function Descend(j: Json, tokens: seq<string>): Option<Json>
  {
    if tokens == [] then Some(j)
    else if Child(j, tokens[0]).None? then None
    else Descend(Child(j, tokens[0]).value, tokens[1..])
  }

  /** The text up to the next slash. */
  function UpToSlash(s: string): (k: nat)
    ensures k <= |s| && (k < |s| ==> s[k] == '/')
  {
    if s == "" || s[0] == '/' then 0 else 1 + UpToSlash(s[1..])
  }

  /** split('/') after the leading slash, each piece unescaped. */
  function Split(s: string): seq<string>
    decreases |s|
  {
    var k := UpToSlash(s);
    [Unescape(s[..k])] + if k < |s| then Split(s[k + 1..]) else []
  }

  /** Value::pointer. */
  function Lookup(j: Json, p: string): Option<Json>
  {
    if p == "" then Some(j) else if p[0] != '/' then None else Descend(j, Split(p[1..]))
  }

  function Meanings(tokens: seq<Token>): seq<string>
  {
    if tokens == [] then [] else [MeantToken(tokens[0])] + Meanings(tokens[1..])
  }

  lemma {:induction false} UpToSlashConcat(s: string, rest: string)
    requires forall i | 0 <= i < |s| :: s[i] != '/'
    requires rest == "" || rest[0] == '/'
    ensures UpToSlash(s + rest) == |s|
  {
    if s == "" {
      assert s + rest == rest;
    } else {
      assert (s + rest)[1..] == s[1..] + rest;
      UpToSlashConcat(s[1..], rest);
    }
  }

  lemma {:induction false} TokenHasNoSlash(token: Token)
    requires TokenOk(token)
    ensures forall i | 0 <= i < |WrittenToken(token)| :: WrittenToken(token)[i] != '/'
  {
    if token != [] {
      TokenHasNoSlash(token[1..]);
      assert WellFormed(token[0]);
      var head, tail := Written(token[0]), WrittenToken(token[1..]);
      forall i | 0 <= i < |head + tail| ensures (head + tail)[i] != '/' {
        if i >= |head| { assert (head + tail)[i] == tail[i - |head|]; }
      }
    }
  }

  lemma {:induction false} SplitMeansTokens(tokens: seq<Token>)
    requires TokensOk(tokens) && tokens != []
    ensures Split(WrittenPointer(tokens)[1..]) == Meanings(tokens)
  {
    hide Unescape, WrittenToken, UpToSlash, MeantToken;
    var s, rest := WrittenToken(tokens[0]), WrittenPointer(tokens[1..]);
    assert WrittenPointer(tokens)[1..] == s + rest;
    TokenHasNoSlash(tokens[0]);
    UpToSlashConcat(s, rest);
    assert (s + rest)[..|s|] == s;
    UnescapeMeansToken(tokens[0]);
    if tokens[1..] != [] {
      assert (s + rest)[|s| + 1..] == rest[1..];
      SplitMeansTokens(tokens[1..]);
    }
  }

  /** Following a validated pointer walks down by the meanings of its tokens. */
  lemma LookupFollowsTokens(j: Json, tokens: seq<Token>)
    requires TokensOk(tokens)
    ensures Lookup(j, WrittenPointer(tokens)) == Descend(j, Meanings(tokens))
  {
    if tokens != [] { SplitMeansTokens(tokens); }
  }

  // ---- what a token selects ----

  function DigitOf(n: nat): char
    requires n < 10
  {
    "0123456789"[n]
  }

  /** The decimal text of a number, without leading zeros. */
  function DecimalText(n: nat): string { if n < 10 then [DigitOf(n)] else DecimalText(n / 10) + [DigitOf(n % 10)] }

  predicate AllDigits(s: string) { forall i | 0 <= i < |s| :: IsDigit(s[i]) }

  lemma {:induction false} DecimalTextReads(n: nat)
    ensures DecimalText(n) != "" && AllDigits(DecimalText(n)) && Decimal(DecimalText(n)) == n
    ensures DecimalText(n)[0] == '0' ==> n == 0
  {
    hide Decimal, DigitOf, IsDigit, DigitValue;
    DigitReads(n % 10);
    if n < 10 {
      DecimalEmpty();
      DecimalAppend("", DigitOf(n));
      assert "" + [DigitOf(n)] == [DigitOf(n)];
    } else {
      DecimalTextReads(n / 10);
      DecimalAppend(DecimalText(n / 10), DigitOf(n % 10));
    }
  }

  lemma DigitReads(d: nat)
    requires d < 10
    ensures IsDigit(DigitOf(d)) && DigitValue(DigitOf(d)) == d && (DigitOf(d) == '0' ==> d == 0)
  {
  }

  lemma DecimalEmpty()
    ensures Decimal("") == 0
  {
  }

  lemma DecimalAppend(head: string, c: char)
    requires AllDigits(head) && IsDigit(c)
    ensures AllDigits(head + [c]) && Decimal(head + [c]) == 10 * Decimal(head) + DigitValue(c)
  {
    assert (head + [c])[..|head|] == head;
  }

  lemma {:induction false} DecimalReads(s: string)
    requires s != "" && AllDigits(s) && (s[0] == '0' ==> |s| == 1)
    ensures DecimalText(Decimal(s)) == s && (|s| > 1 ==> Decimal(s) >= 10)
  {
    var head, last := s[..|s| - 1], s[|s| - 1];
    assert IsDigit(last) && DigitOf(DigitValue(last)) == last;
    if |s| > 1 {
      assert AllDigits(head) && head[0] == s[0];
      DecimalReads(head);
      if |head| == 1 { assert Decimal(head) == DigitValue(head[0]) >= 1 by { assert head[..0] == ""; } }
      assert Decimal(s) / 10 == Decimal(head) && Decimal(s) % 10 == DigitValue(last);
      assert s == head + [last];
    } else {
      assert head == "" && s == [last];
    }
  }

  /** A token is the index n exactly when it is the decimal text of n. */
  lemma IndexMeansDecimal(token: string, n: nat)
    ensures Index(token) == Some(n) <==> token == DecimalText(n)
  {
    if Index(token) == Some(n) {
      DecimalReads(token);
    }
    if token == DecimalText(n) {
      DecimalTextReads(n);
      if token[0] == '0' { assert DecimalText(0) == "0"; }
    }
  }

  /** v is the member of j the token names: a field by its name, an element by its decimal index. */
  predicate Selects(j: Json, token: string, v: Json)
  {
    || (j.Obj? && token in j.fields && j.fields[token] == v)
    || (j.Arr? && exists n | 0 <= n < |j.items| :: token == DecimalText(n) && j.items[n] == v)
  }

  lemma ChildIsSelected(j: Json, token: string, v: Json)
    ensures Child(j, token) == Some(v) <==> Selects(j, token, v)
  {
    hide Index, DecimalText;
    if j.Arr? {
      forall n: nat ensures Index(token) == Some(n) <==> token == DecimalText(n) { IndexMeansDecimal(token, n); }
    }
  }

  /** Values on the way down, one more than there are tokens, each selecting the next. */
  predicate IsWayDown(j: Json, tokens: seq<string>, way: seq<Json>)
  {
    |way| == |tokens| + 1 && way[0] == j && forall i | 0 <= i < |tokens| :: Selects(way[i], tokens[i], way[i + 1])
  }

  lemma {:induction false} DescendIsWayDown(j: Json, tokens: seq<string>, v: Json)
    ensures Descend(j, tokens) == Some(v) <==> exists way :: IsWayDown(j, tokens, way) && way[|tokens|] == v
    decreases |tokens|
  {
    hide Selects, Child;
    if tokens == [] {
      assert Descend(j, tokens) == Some(v) ==> IsWayDown(j, tokens, [v]);
    } else {
      if Descend(j, tokens) == Some(v) {
        var next := Child(j, tokens[0]).value;
        ChildIsSelected(j, tokens[0], next);
        DescendIsWayDown(next, tokens[1..], v);
        var rest :| IsWayDown(next, tokens[1..], rest) && rest[|tokens| - 1] == v;
        WayExtends(j, tokens, next, rest);
        assert IsWayDown(j, tokens, [j] + rest) && ([j] + rest)[|tokens|] == v;
      }
      if way :| IsWayDown(j, tokens, way) && way[|tokens|] == v {
        assert Selects(way[0], tokens[0], way[1]);
        ChildIsSelected(j, tokens[0], way[1]);
        WayShortens(j, tokens, way);
        assert way[1..][|tokens| - 1] == v;
        DescendIsWayDown(way[1], tokens[1..], v);
      }
    }
  }

  lemma WayExtends(j: Json, tokens: seq<string>, next: Json, rest: seq<Json>)
    requires tokens != [] && Selects(j, tokens[0], next) && IsWayDown(next, tokens[1..], rest)
    ensures IsWayDown(j, tokens, [j] + rest)
  {
    hide Selects;
    var way := [j] + rest;
    forall i | 0 <= i < |tokens| ensures Selects(way[i], tokens[i], way[i + 1]) {
      if i > 0 { assert Selects(rest[i - 1], tokens[1..][i - 1], rest[i]); }
    }
  }

  lemma WayShortens(j: Json, tokens: seq<string>, way: seq<Json>)
    requires tokens != [] && IsWayDown(j, tokens, way)
    ensures IsWayDown(way[1], tokens[1..], way[1..])
  {
    hide Selects;
    forall i | 0 <= i < |tokens[1..]| ensures Selects(way[1..][i], tokens[1..][i], way[1..][i + 1]) {
      assert Selects(way[i + 1], tokens[i + 1], way[i + 2]);
    }
  }

  /** A validated pointer finds v in j exactly when its tokens, unescaped, lead from j to v. */
  lemma PointerFinds(j: Json, tokens: seq<Token>, v: Json)
    requires TokensOk(tokens)
    ensures Lookup(j, WrittenPointer(tokens)) == Some(v) <==>
      exists way :: IsWayDown(j, Meanings(tokens), way) && way[|Meanings(tokens)|] == v
  {
    hide Lookup, Descend, IsWayDown;
    LookupFollowsTokens(j, tokens);
    DescendIsWayDown(j, Meanings(tokens), v);
  }
}
