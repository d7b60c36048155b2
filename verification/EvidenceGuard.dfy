/** The evidence guard on numbers and probability claims in a generated brief
    (src/lib/brief-guard.ts, lines 50-99, 119-123 and 165-191). Numbers are reals, texts come as
    the number tokens found in them, and JSON as the values its walk meets. */
module EvidenceGuard {
  import opened Wrappers

  function Pow10(n: nat): (p: int)
    ensures p > 0
  {
    if n == 0 then 1 else 10 * Pow10(n - 1)
  }

  function Abs(x: real): real {
    if x < 0.0 then -x else x
  }

  /** `x` counted in steps of 10^-dp. */
  function Steps(x: real, dp: nat): real {
    x * Pow10(dp) as real
  }

  /** The nearest whole number, halves away from zero. */
  function Rounded(x: real): int {
    if x < 0.0 then -(0.5 - x).Floor else (x + 0.5).Floor
  }

  /** `Number(x.toFixed(dp))`. */
  function ToFixed(x: real, dp: nat): real {
    Rounded(Steps(x, dp)) as real / Pow10(dp) as real
  }

  function Canon(x: real): real {
    ToFixed(x, 6)
  }

  function Bases(x: real): seq<real> {
    [x, Abs(x)] + if Abs(x) <= 1.0 then [x * 100.0, Abs(x) * 100.0] else []
  }

  /** `b` rounded to zero up to four decimals. */
  function RoundingsOf(b: real): set<real> {
    set dp: nat | dp < 5 :: Canon(ToFixed(b, dp))
  }

  function RoundingsOfAll(bases: seq<real>): set<real> {
    set b, c | b in bases && c in RoundingsOf(b) :: c
  }

  /** The forms in which `x` may be quoted. */
  function FormsOf(x: real): set<real> {
    RoundingsOfAll(Bases(x))
  }

  function FormsOfAll(xs: set<real>): set<real> {
    set x, c | x in xs && c in FormsOf(x) :: c
  }

  /** A JSON value: a number (missing if not finite), a string with the number it spells if it
      is one, a list (or the values of an object), or anything else. */
  datatype Json = Num(value: Option<real>) | Text(spells: Option<real>) | List(items: seq<Json>) | Other

  /** Every number in the value. */
  function NumbersOf(j: Json): set<real> {
    match j
    case Num(v) => if v.Some? then {v.value} else {}
    case Text(v) => if v.Some? then {v.value} else {}
    case List(items) => NumbersOfAll(items)
    case Other => {}
  }

  function NumbersOfAll(items: seq<Json>): set<real> {
    if items == [] then {} else NumbersOf(items[0]) + NumbersOfAll(items[1..])
  }

  /** A number in a text: its value, and whether a percent sign follows it. */
  datatype Token = Token(value: real, pct: bool)

  function Values(texts: seq<seq<Token>>): set<real> {
    set i, j | 0 <= i < |texts| && 0 <= j < |texts[i]| :: texts[i][j].value
  }

  function PlainValues(texts: seq<seq<Token>>): set<real> {
    set i, j | 0 <= i < |texts| && 0 <= j < |texts[i]| && !texts[i][j].pct :: Canon(texts[i][j].value)
  }

  const ALWAYS: set<real> := {0.0, 1.0, 100.0}

  /** The two sets that `evidenceNumbers` fills. */
  class Evidence {
    var strict: set<real>
    var plain: set<real>

    constructor (signals: Json, templates: seq<seq<Token>>, catalogs: seq<seq<Token>>)
      ensures strict == ALWAYS + FormsOfAll(NumbersOf(signals)) + FormsOfAll(Values(templates))
      ensures plain == PlainValues(catalogs)
    {
      strict, plain := ALWAYS, {};
      new;
      Walk(signals);
      AddTemplates(templates);
      AddCatalogs(catalogs);
    }

    method AddTemplates(templates: seq<seq<Token>>)
      modifies this
      ensures strict == old(strict) + FormsOfAll(Values(templates)) && plain == old(plain)
    {
      for i := 0 to |templates|
        invariant strict == old(strict) + FormsOfAll(Values(templates[..i])) && plain == old(plain)
      {
        AddTokens(templates[i]);
        ValuesSnoc(templates, i);
      }
      assert templates[..|templates|] == templates;
    }

    method AddCatalogs(catalogs: seq<seq<Token>>)
      modifies this
      ensures plain == old(plain) + PlainValues(catalogs) && strict == old(strict)
    {
      for i := 0 to |catalogs|
        invariant plain == old(plain) + PlainValues(catalogs[..i]) && strict == old(strict)
      {
        AddPlain(catalogs[i]);
        ValuesSnoc(catalogs, i);
      }
      assert catalogs[..|catalogs|] == catalogs;
    }

    method AddForms(x: real)
      modifies this
      ensures strict == old(strict) + FormsOf(x) && plain == old(plain)
    {
      var bases := [x, Abs(x)];
      if Abs(x) <= 1.0 {
        bases := bases + [x * 100.0, Abs(x) * 100.0];
      }
      assert bases == Bases(x);
      for i := 0 to |bases|
        invariant strict == old(strict) + RoundingsOfAll(bases[..i]) && plain == old(plain)
      {
        AddRoundings(bases[i]);
        assert bases[..i + 1] == bases[..i] + [bases[i]];
      }
      assert bases[..|bases|] == bases;
    }

    method AddRoundings(b: real)
      modifies this
      ensures strict == old(strict) + RoundingsOf(b) && plain == old(plain)
    {
      for dp := 0 to 5
        invariant strict == old(strict) + (set d: nat | d < dp :: Canon(ToFixed(b, d))) && plain == old(plain)
      {
        strict := strict + {Canon(ToFixed(b, dp))};
      }
    }

    method Walk(v: Json)
      modifies this
      ensures strict == old(strict) + FormsOfAll(NumbersOf(v)) && plain == old(plain)
      decreases v
    {
      match v
      case Num(n) => if n.Some? { AddForms(n.value); }
      case Text(n) => if n.Some? { AddForms(n.value); }
      case List(items) =>
        for i := 0 to |items|
          invariant strict == old(strict) + FormsOfAll(NumbersOfAll(items[..i])) && plain == old(plain)
        {
          Walk(items[i]);
          NumbersSnoc(items[..i], items[i]);
          assert items[..i + 1] == items[..i] + [items[i]];
        }
        assert items[..|items|] == items;
      case Other =>
    }

    method AddTokens(text: seq<Token>)
      modifies this
      ensures strict == old(strict) + FormsOfAll(Values([text])) && plain == old(plain)
    {
      for i := 0 to |text|
        invariant strict == old(strict) + FormsOfAll(Values([text[..i]])) && plain == old(plain)
      {
        AddForms(text[i].value);
        TokenSnoc(text[..i], text[i]);
        assert text[..i + 1] == text[..i] + [text[i]];
      }
      assert text[..|text|] == text;
    }

    method AddPlain(text: seq<Token>)
      modifies this
      ensures plain == old(plain) + PlainValues([text]) && strict == old(strict)
    {
      for i := 0 to |text|
        invariant plain == old(plain) + PlainValues([text[..i]]) && strict == old(strict)
      {
        if !text[i].pct {
          plain := plain + {Canon(text[i].value)};
        }
        TokenSnoc(text[..i], text[i]);
        assert text[..i + 1] == text[..i] + [text[i]];
      }
      assert text[..|text|] == text;
    }
  }

  lemma ValuesSnoc(texts: seq<seq<Token>>, i: nat)
    requires i < |texts|
    ensures Values(texts[..i + 1]) == Values(texts[..i]) + Values([texts[i]])
    ensures PlainValues(texts[..i + 1]) == PlainValues(texts[..i]) + PlainValues([texts[i]])
  {
    assert [texts[i]][0] == texts[i] == texts[..i + 1][i];
  }

  lemma TokenSnoc(text: seq<Token>, t: Token)
    ensures Values([text + [t]]) == Values([text]) + {t.value}
    ensures PlainValues([text + [t]]) == PlainValues([text]) + (if t.pct then {} else {Canon(t.value)})
  {
    hide Canon;
    var one, more := [text], [text + [t]];
    assert more[0][|text|] == t;
    forall j | 0 <= j < |text| ensures more[0][j] == one[0][j] {
    }
  }

  lemma {:induction false} NumbersSnoc(items: seq<Json>, j: Json)
    ensures NumbersOfAll(items + [j]) == NumbersOfAll(items) + NumbersOf(j)
  {
    if items == [] {
      assert items + [j] == [j];
    } else {
      assert (items + [j])[1..] == items[1..] + [j];
      NumbersSnoc(items[1..], j);
    }
  }

  /** The part of the value that the steps of `path` lead to. */
  function Reach(j: Json, path: seq<nat>): Option<Json> {
    if path == [] then Some(j)
    else if j.List? && path[0] < |j.items| then Reach(j.items[path[0]], path[1..])
    else None
  }

  /** A number, or a string that spells one. */
  predicate IsNumber(j: Option<Json>, x: real) {
    j == Some(Num(Some(x))) || j == Some(Text(Some(x)))
  }

  ghost predicate Inside(x: real, j: Json) {
    exists path: seq<nat> :: IsNumber(Reach(j, path), x)
  }

  lemma {:induction false} NumbersOfAllAt(items: seq<Json>, x: real)
    ensures x in NumbersOfAll(items) <==> exists i :: 0 <= i < |items| && x in NumbersOf(items[i])
  {
    if items != [] {
      NumbersOfAllAt(items[1..], x);
      if i :| 0 <= i < |items| && x in NumbersOf(items[i]) {
        assert i > 0 ==> items[1..][i - 1] == items[i];
      }
      if i :| 0 <= i < |items[1..]| && x in NumbersOf(items[1..][i]) {
        assert items[1..][i] == items[i + 1];
      }
    }
  }

  /** The numbers of a value are those anywhere inside it. */
  lemma {:induction false} NumbersAreInside(j: Json, x: real)
    ensures x in NumbersOf(j) <==> Inside(x, j)
    decreases j
  {
    if j.List? {
      NumbersOfAllAt(j.items, x);
      if x in NumbersOf(j) {
        var i :| 0 <= i < |j.items| && x in NumbersOf(j.items[i]);
        NumbersAreInside(j.items[i], x);
        var path: seq<nat> :| IsNumber(Reach(j.items[i], path), x);
        assert ([i] + path)[1..] == path;
        assert IsNumber(Reach(j, [i] + path), x);
      }
      if path: seq<nat> :| IsNumber(Reach(j, path), x) {
        NumbersAreInside(j.items[path[0]], x);
        assert IsNumber(Reach(j.items[path[0]], path[1..]), x);
      }
    } else {
      assert Reach(j, []) == Some(j);
    }
  }

  // The check.

  /** A sentence: the numbers of a likelihood it states as a percentage, if it does; and whether
      it has a probability word, a percentage or fraction, and a negation. */
  datatype Sentence = Sentence(direct: Option<seq<Token>>, probWord: bool, figure: bool, negated: bool)

  datatype Verdict = Ok | NumberNotInEvidence(index: nat) | ProbabilityClaim | ClaimNotMarket

  /** Lines 119 to 123. */
  function ProbabilityForms(yes: Option<real>, no: Option<real>): set<real> {
    (if yes.Some? then FormsOf(yes.value) else {}) + (if no.Some? then FormsOf(no.value) else {})
  }

  predicate Supported(n: Token, strict: set<real>, plain: set<real>) {
    Canon(n.value) in strict || (!n.pct && Canon(n.value) in plain)
  }

  predicate StatesMarketOdds(nums: seq<Token>, available: bool, market: set<real>) {
    available && nums != [] && forall n :: n in nums ==> Canon(n.value) in market
  }

  predicate ClaimsLikelihood(s: Sentence) {
    s.probWord && s.figure && !s.negated
  }

  /** The number and probability checks of `checkLlmBrief`. */
  method CheckNumbers(tokens: seq<Token>, sentences: seq<Sentence>, strict: set<real>, plain: set<real>,
                      available: bool, market: set<real>) returns (v: Verdict)
    ensures v.NumberNotInEvidence? ==>
              v.index < |tokens| && !Supported(tokens[v.index], strict, plain)
              && forall n :: n in tokens[..v.index] ==> Supported(n, strict, plain)
    ensures v.Ok? <==>
              && (forall n :: n in tokens ==> Supported(n, strict, plain))
              && (forall s :: s in sentences && s.direct.Some? ==> StatesMarketOdds(s.direct.value, available, market))
              && (!available ==> forall s :: s in sentences ==> !ClaimsLikelihood(s))
  {
    for i := 0 to |tokens|
      invariant forall n :: n in tokens[..i] ==> Supported(n, strict, plain)
    {
      if !Supported(tokens[i], strict, plain) {
        return NumberNotInEvidence(i);
      }
      assert tokens[..i + 1] == tokens[..i] + [tokens[i]];
    }
    assert tokens[..|tokens|] == tokens;
    v := CheckClaims(sentences, available, market);
  }

  /** Lines 173 to 191. */
  method CheckClaims(sentences: seq<Sentence>, available: bool, market: set<real>) returns (v: Verdict)
    ensures !v.NumberNotInEvidence?
    ensures v.Ok? <==>
              && (forall s :: s in sentences && s.direct.Some? ==> StatesMarketOdds(s.direct.value, available, market))
              && (!available ==> forall s :: s in sentences ==> !ClaimsLikelihood(s))
  {
    for i := 0 to |sentences|
      invariant forall s :: s in sentences[..i] && s.direct.Some? ==>
                              StatesMarketOdds(s.direct.value, available, market)
    {
      var s := sentences[i];
      assert sentences[..i + 1] == sentences[..i] + [s];
      if s.direct.Some? {
        if !available {
          return ProbabilityClaim;
        }
        if s.direct.value == [] || exists n :: n in s.direct.value && Canon(n.value) !in market {
          return ClaimNotMarket;
        }
      }
    }
    assert sentences[..|sentences|] == sentences;
    if !available {
      for i := 0 to |sentences|
        invariant forall s :: s in sentences[..i] ==> !ClaimsLikelihood(s)
      {
        assert sentences[..i + 1] == sentences[..i] + [sentences[i]];
        if ClaimsLikelihood(sentences[i]) {
          return ProbabilityClaim;
        }
      }
    }
    return Ok;
  }

  // What rounding means.

  /** `n` is at most 1/2 from `x`, and 1/2 only away from zero. */
  predicate IsNearestWhole(n: int, x: real) {
    && Abs(n as real - x) <= 0.5
    && (Abs(n as real - x) == 0.5 ==> Abs(n as real) > Abs(x))
  }

  /** `y` is a whole number of steps of 10^-dp, at most half a step from `x`, and half a step only
      away from zero. */
  ghost predicate IsNearest(y: real, x: real, dp: nat) {
    Steps(y, dp).Floor as real == Steps(y, dp) && IsNearestWhole(Steps(y, dp).Floor, Steps(x, dp))
  }

  lemma NearestWholeIff(n: int, x: real)
    ensures n == Rounded(x) <==> IsNearestWhole(n, x)
  {
  }

  /** The rounding in use is the nearest number with `dp` decimals, and the only one. */
  lemma ToFixedIsNearest(y: real, x: real, dp: nat)
    ensures y == ToFixed(x, dp) <==> IsNearest(y, x, dp)
  {
    FixedInSteps(x, dp);
    NearestWholeIff(Rounded(Steps(x, dp)), Steps(x, dp));
    if IsNearest(y, x, dp) {
      NearestWholeIff(Steps(y, dp).Floor, Steps(x, dp));
      SameProduct(y, ToFixed(x, dp), Pow10(dp) as real);
    }
  }

  lemma FixedInSteps(x: real, dp: nat)
    ensures Steps(ToFixed(x, dp), dp) == Rounded(Steps(x, dp)) as real
  {
    Quotient(Rounded(Steps(x, dp)) as real, Pow10(dp) as real);
  }

  lemma Quotient(a: real, p: real)
    requires p > 0.0
    ensures a / p * p == a
  {
  }

  lemma SameProduct(y: real, z: real, p: real)
    requires p > 0.0 && y * p == z * p
    ensures y == z
  {
    assert (y - z) * p == 0.0;
  }

  // What passing means.

  lemma Pow10Splits(m: nat, n: nat)
    ensures Pow10(m + n) == Pow10(m) * Pow10(n)
  {
    if m > 0 {
      Pow10Splits(m - 1, n);
    }
  }

  /** Rounding once more, to six decimals, changes nothing. */
  lemma CanonKeepsRoundings(x: real, dp: nat)
    requires dp <= 6
    ensures Canon(ToFixed(x, dp)) == ToFixed(x, dp)
  {
    var n, p, q := Rounded(Steps(x, dp)), Pow10(dp), Pow10(6 - dp);
    Pow10Splits(dp, 6 - dp);
    Scaled(n, p, q);
    assert Steps(ToFixed(x, dp), 6) == (n * q) as real;
    NearestWholeIff(n * q, (n * q) as real);
  }

  lemma Scaled(n: int, p: int, q: int)
    requires p > 0 && q > 0
    ensures n as real / p as real * (p * q) as real == (n * q) as real
    ensures (n * q) as real / (p * q) as real == n as real / p as real
    ensures n >= 0 ==> n as real / p as real >= 0.0
    ensures n as real / p as real == 0.0 ==> n == 0
  {
    var y := n as real / p as real;
    assert y * p as real == n as real;
  }

  /** `x` is quoted as `c`: rounded to at most four decimals, with or without its sign, and as a
      percentage if it is at most 1 in size. */
  ghost predicate Quotes(c: real, x: real) {
    exists b, dp: nat :: dp <= 4 && IsBase(b, x) && c == ToFixed(b, dp)
  }

  predicate IsBase(b: real, x: real) {
    b == x || b == Abs(x) || (Abs(x) <= 1.0 && (b == 100.0 * x || b == 100.0 * Abs(x)))
  }

  lemma FormsAreQuotes(c: real, x: real)
    ensures c in FormsOf(x) <==> Quotes(c, x)
  {
    assert forall b :: b in Bases(x) <==> IsBase(b, x);
    if c in FormsOf(x) {
      var b :| b in Bases(x) && c in RoundingsOf(b);
      var dp: nat :| dp < 5 && c == Canon(ToFixed(b, dp));
      CanonKeepsRoundings(b, dp);
    }
    if Quotes(c, x) {
      var b, dp: nat :| dp <= 4 && IsBase(b, x) && c == ToFixed(b, dp);
      CanonKeepsRoundings(b, dp);
      assert c in RoundingsOf(b);
    }
  }

  /** What a number in the brief may rest on. */
  ghost predicate Justified(n: Token, signals: Json, templates: seq<seq<Token>>, catalogs: seq<seq<Token>>) {
    var c := Canon(n.value);
    || c == 0.0 || c == 1.0 || c == 100.0
    || (exists x :: (Inside(x, signals) || x in Values(templates)) && Quotes(c, x))
    || (!n.pct && exists i, j :: 0 <= i < |catalogs| && 0 <= j < |catalogs[i]|
                                 && !catalogs[i][j].pct && Canon(catalogs[i][j].value) == c)
  }

  /** A number passes exactly when it is 0, 1 or 100, a rounding of a number in the signals or the
      template, or a plain number equal to a plain number of the catalog text. */
  lemma SupportedIsJustified(n: Token, signals: Json, templates: seq<seq<Token>>, catalogs: seq<seq<Token>>)
    ensures Supported(n, ALWAYS + FormsOfAll(NumbersOf(signals)) + FormsOfAll(Values(templates)), PlainValues(catalogs))
            <==> Justified(n, signals, templates, catalogs)
  {
    var c := Canon(n.value);
    forall x ensures c in FormsOf(x) <==> Quotes(c, x) {
      FormsAreQuotes(c, x);
    }
    forall x ensures x in NumbersOf(signals) <==> Inside(x, signals) {
      NumbersAreInside(signals, x);
    }
    hide Quotes, FormsOf, Canon, Inside;
    assert c in FormsOfAll(NumbersOf(signals)) <==> exists x :: x in NumbersOf(signals) && c in FormsOf(x);
    assert c in FormsOfAll(Values(templates)) <==> exists x :: x in Values(templates) && c in FormsOf(x);
  }

  /** A percentage never rests on the catalog text. */
  lemma PercentagesIgnoreCatalog(n: Token, signals: Json, templates: seq<seq<Token>>, catalogs: seq<seq<Token>>)
    requires n.pct
    ensures Justified(n, signals, templates, catalogs) <==> Justified(n, signals, templates, [])
  {
  }

  /** A stated likelihood may only be a rounding of the market's own YES or NO probability. */
  lemma MarketOdds(c: real, yes: Option<real>, no: Option<real>)
    ensures c in ProbabilityForms(yes, no)
            <==> (yes.Some? && Quotes(c, yes.value)) || (no.Some? && Quotes(c, no.value))
  {
    FormsAreQuotes(c, yes.GetOr(0.0));
    FormsAreQuotes(c, no.GetOr(0.0));
    hide Quotes, FormsOf;
  }

  /** A number stated as a likelihood rests on the market's own YES or NO probability. */
  ghost predicate IsMarketOdds(n: Token, yes: Option<real>, no: Option<real>) {
    (yes.Some? && Quotes(Canon(n.value), yes.value)) || (no.Some? && Quotes(Canon(n.value), no.value))
  }

  /** The number and likelihood part of `guardLlmBrief` (src/lib/brief.ts): a brief passes exactly
      when every number in it rests on the evidence, every likelihood it states as a percentage
      on the market's own probability, and, where there is none, it states no likelihood. */
  method GuardBrief(tokens: seq<Token>, sentences: seq<Sentence>, signals: Json, templates: seq<seq<Token>>,
                    catalogs: seq<seq<Token>>, secondary: bool, yes: Option<real>, no: Option<real>)
    returns (v: Verdict)
    ensures var available := !secondary && yes.Some? && no.Some?;
            v.Ok? <==>
              && (forall n :: n in tokens ==> Justified(n, signals, templates, catalogs))
              && (forall s :: s in sentences && s.direct.Some? ==>
                    available && s.direct.value != [] && forall n :: n in s.direct.value ==> IsMarketOdds(n, yes, no))
              && (!available ==> forall s :: s in sentences && s.probWord && s.figure ==> s.negated)
    ensures v.NumberNotInEvidence? ==> v.index < |tokens| && !Justified(tokens[v.index], signals, templates, catalogs)
  {
    var available := !secondary && yes.Some? && no.Some?;
    var evidence := new Evidence(signals, templates, catalogs);
    var market := ProbabilityForms(yes, no);
    forall n: Token
      ensures Supported(n, evidence.strict, evidence.plain) <==> Justified(n, signals, templates, catalogs)
    {
      SupportedIsJustified(n, signals, templates, catalogs);
    }
    forall n: Token ensures Canon(n.value) in market <==> IsMarketOdds(n, yes, no) {
      MarketOdds(Canon(n.value), yes, no);
    }
    hide Supported, Justified, IsMarketOdds, Canon, ClaimsLikelihood, ProbabilityForms;
    v := CheckNumbers(tokens, sentences, evidence.strict, evidence.plain, available, market);
  }
}
