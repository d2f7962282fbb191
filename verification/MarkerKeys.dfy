/** The strings behind the markers: they share a Redis Cluster slot with the data key they guard, and different markers
    are different strings. */
module MarkerKeys {
  import opened Domain
  import opened RedisDb

  // ---- numbers -----------------------------------------------------------------------------

  const DIGITS := "0123456789"

  function Decimal(n: nat): (s: string)
    ensures s != "" && forall i :: 0 <= i < |s| ==> s[i] in DIGITS
  {
    if n < 10 then [DIGITS[n]] else Decimal(n / 10) + [DIGITS[n % 10]]
  }

  function FormatInt(n: int): (s: string)
    ensures s != "" && forall i :: 0 <= i < |s| ==> s[i] in DIGITS || s[i] == '-'
  {
    if n < 0 then "-" + Decimal(-n) else Decimal(n)
  }

  lemma {:induction false} DecimalInjective(m: nat, n: nat)
    requires Decimal(m) == Decimal(n)
    ensures m == n
  {
    var s, t := Decimal(m), Decimal(n);
    assert (|s| == 1 <==> m < 10) && (|t| == 1 <==> n < 10);
    if m >= 10 && n >= 10 {
      assert Decimal(m / 10) == s[..|s| - 1] == t[..|t| - 1] == Decimal(n / 10);
      DecimalInjective(m / 10, n / 10);
      DigitInjective(m % 10, n % 10, s[|s| - 1]);
    } else if m < 10 && n < 10 {
      DigitInjective(m, n, s[0]);
    }
  }

  lemma DigitInjective(a: nat, b: nat, d: char)
    requires a < 10 && b < 10 && DIGITS[a] == d == DIGITS[b]
    ensures a == b
  {}

  lemma FormatIntInjective(m: int, n: int)
    requires FormatInt(m) == FormatInt(n)
    ensures m == n
  {
    assert (FormatInt(m)[0] == '-' <==> m < 0) && (FormatInt(n)[0] == '-' <==> n < 0);
    if m < 0 && n < 0 {
      assert FormatInt(m)[1..] == Decimal(-m) && FormatInt(n)[1..] == Decimal(-n);
      DecimalInjective(-m, -n);
    } else if m >= 0 && n >= 0 {
      DecimalInjective(m, n);
    }
  }

  // ---- keys ----------------------------------------------------------------------------------

  function QuantityKey(h: Holding): string {
    "portfolio:" + FormatInt(h.portfolio) + ":stock:" + FormatInt(h.stock) + ":quantity"
  }

  function PortfolioKey(p: PortfolioId): string {
    "pf:" + FormatInt(p)
  }

  function UserKey(name: string): string {
    "usr:" + name
  }

  function EventKey(e: Event): string {
    match e
    case TradeEvent(id) => "trade:" + FormatInt(id)
    case PortfolioEvent(p, kind) => "portfolio-user:" + FormatInt(p) + ":" + KindName(kind)
  }

  function MarkerKey(dataKey: string, eventKey: string): string {
    "applied:{" + dataKey + "}:" + eventKey
  }

  /** Where the character first occurs, or the length. */
  function FirstIndex(s: string, ch: char): (i: nat)
    ensures i <= |s| && (forall j :: 0 <= j < i ==> s[j] != ch) && (i < |s| ==> s[i] == ch)
  {
    if s == "" || s[0] == ch then 0 else 1 + FirstIndex(s[1..], ch)
  }

  /** The part of a key that decides its slot ("Hash tags" in the Redis Cluster specification): what stands between the
      first brace and the first closing brace after it, if that is not empty, and the whole key otherwise. */
  function HashTag(key: string): string {
    var open := FirstIndex(key, '{');
    if open == |key| then key
    else
      var rest := key[open + 1..];
      var close := FirstIndex(rest, '}');
      if close == |rest| || close == 0 then key else rest[..close]
  }

  lemma FirstIndexIs(s: string, ch: char, i: nat)
    requires i < |s| && s[i] == ch && forall j :: 0 <= j < i ==> s[j] != ch
    ensures FirstIndex(s, ch) == i
  {}

  lemma MarkerTag(d: string, e: string)
    ensures var rest := d + "}:" + e; var close := FirstIndex(rest, '}');
      HashTag(MarkerKey(d, e)) == if close == 0 then MarkerKey(d, e) else rest[..close]
  {
    var key := MarkerKey(d, e);
    FirstIndexIs(key, '{', 8);
    assert key[9..] == d + "}:" + e;
    assert (d + "}:" + e)[|d|] == '}';
  }

  /** A marker is hashed by the whole of its data key exactly when that key is not empty and has no closing brace. */
  lemma MarkerSharesSlotIff(d: string, e: string)
    ensures HashTag(MarkerKey(d, e)) == d <==> d != "" && '}' !in d
  {
    MarkerTag(d, e);
    var rest := d + "}:" + e;
    if '}' !in d {
      FirstIndexIs(rest, '}', |d|);
      assert rest[..|d|] == d;
    } else {
      var j :| 0 <= j < |d| && d[j] == '}';
      assert rest[j] == '}';
      assert FirstIndex(rest, '}') <= j;
    }
    assert |MarkerKey(d, e)| > |d|;
  }

  /** So it lies in the slot of its data key: a key without a closing brace is hashed whole, whatever else it holds. */
  lemma MarkerSharesSlot(d: string, e: string)
    requires d != "" && '}' !in d
    ensures HashTag(MarkerKey(d, e)) == HashTag(d) == d
  {
    MarkerSharesSlotIff(d, e);
    var open := FirstIndex(d, '{');
    if open < |d| {
      var rest := d[open + 1..];
      assert forall j :: 0 <= j < |rest| ==> rest[j] == d[open + 1 + j];
    }
  }

  /** Strings that agree up to a separator neither side contains agree on both sides of it. */
  lemma SplitAt(a: string, b: string, a': string, b': string, ch: char)
    requires ch !in a && ch !in a' && a + [ch] + b == a' + [ch] + b'
    ensures a == a' && b == b'
  {
    var s := a + [ch] + b;
    FirstIndexIs(s, ch, |a|);
    assert s[|a'|] == ch;
    FirstIndexIs(s, ch, |a'|);
    assert s[..|a|] == a && s[..|a'|] == a';
    assert s[|a| + 1..] == b && s[|a'| + 1..] == b';
  }

  lemma LastSeparator(a: string, b: string, ch: char, i: nat)
    requires ch !in b && i < |a + [ch] + b| && (a + [ch] + b)[i] == ch
    ensures i <= |a|
  {
    var s := a + [ch] + b;
    assert forall j :: |a| < j < |s| ==> s[j] == b[j - |a| - 1];
  }

  /** The same for the last separator. */
  lemma SplitAtLast(a: string, b: string, a': string, b': string, ch: char)
    requires ch !in b && ch !in b' && a + [ch] + b == a' + [ch] + b'
    ensures a == a' && b == b'
  {
    var s := a + [ch] + b;
    assert s[|a|] == ch && s[|a'|] == ch;
    LastSeparator(a, b, ch, |a'|);
    LastSeparator(a', b', ch, |a|);
    assert s[..|a|] == a && s[..|a'|] == a';
    assert s[|a| + 1..] == b && s[|a'| + 1..] == b';
  }

  lemma StripPrefix(prefix: string, a: string, a': string)
    requires prefix + a == prefix + a'
    ensures a == a'
  {
    assert (prefix + a)[|prefix|..] == a && (prefix + a')[|prefix|..] == a';
  }

  lemma StripSuffix(a: string, a': string, suffix: string)
    requires a + suffix == a' + suffix
    ensures a == a'
  {
    assert |a| == |a'|;
    assert (a + suffix)[..|a|] == a && (a' + suffix)[..|a'|] == a';
  }

  lemma NumbersHaveNoColon(n: int)
    ensures ':' !in FormatInt(n)
  {}

  lemma QuantityParts(p: string, s: string, p': string, s': string)
    requires ':' !in p && ':' !in p'
    requires "portfolio:" + p + ":stock:" + s + ":quantity" == "portfolio:" + p' + ":stock:" + s' + ":quantity"
    ensures p == p' && s == s'
  {
    var rest, rest' := "stock:" + (s + ":quantity"), "stock:" + (s' + ":quantity");
    assert "portfolio:" + p + ":stock:" + s + ":quantity" == "portfolio:" + (p + ":" + rest);
    assert "portfolio:" + p' + ":stock:" + s' + ":quantity" == "portfolio:" + (p' + ":" + rest');
    StripPrefix("portfolio:", p + ":" + rest, p' + ":" + rest');
    SplitAt(p, rest, p', rest', ':');
    StripPrefix("stock:", s + ":quantity", s' + ":quantity");
    StripSuffix(s, s', ":quantity");
  }

  lemma QuantityKeyInjective(h: Holding, h': Holding)
    requires QuantityKey(h) == QuantityKey(h')
    ensures h == h'
  {
    NumbersHaveNoColon(h.portfolio);
    NumbersHaveNoColon(h'.portfolio);
    QuantityParts(FormatInt(h.portfolio), FormatInt(h.stock), FormatInt(h'.portfolio), FormatInt(h'.stock));
    FormatIntInjective(h.portfolio, h'.portfolio);
    FormatIntInjective(h.stock, h'.stock);
  }

  /** Event keys have no closing brace, so the last one of a marker key ends its data key, whatever that holds. */
  lemma MarkerKeyInjective(d: string, e: string, d': string, e': string)
    requires '}' !in e && '}' !in e' && MarkerKey(d, e) == MarkerKey(d', e')
    ensures d == d' && e == e'
  {
    assert MarkerKey(d, e) == "applied:{" + (d + "}" + (":" + e));
    assert MarkerKey(d', e') == "applied:{" + (d' + "}" + (":" + e'));
    StripPrefix("applied:{", d + "}" + (":" + e), d' + "}" + (":" + e'));
    SplitAtLast(d, ":" + e, d', ":" + e', '}');
    StripPrefix(":", e, e');
  }

  lemma PortfolioEventParts(p: string, k: string, p': string, k': string)
    requires ':' !in p && ':' !in p' && "portfolio-user:" + p + ":" + k == "portfolio-user:" + p' + ":" + k'
    ensures p == p' && k == k'
  {
    assert "portfolio-user:" + p + ":" + k == "portfolio-user:" + (p + ":" + k);
    assert "portfolio-user:" + p' + ":" + k' == "portfolio-user:" + (p' + ":" + k');
    StripPrefix("portfolio-user:", p + ":" + k, p' + ":" + k');
    SplitAt(p, k, p', k', ':');
  }

  function KindName(kind: UserChange): string {
    if kind.Created? then "CREATED" else "DELETED"
  }

  lemma TradeKeyInjective(id: TradeId, id': TradeId)
    requires EventKey(TradeEvent(id)) == EventKey(TradeEvent(id'))
    ensures id == id'
  {
    StripPrefix("trade:", FormatInt(id), FormatInt(id'));
    FormatIntInjective(id, id');
  }

  lemma PortfolioEventKeyInjective(p: PortfolioId, k: UserChange, p': PortfolioId, k': UserChange)
    requires EventKey(PortfolioEvent(p, k)) == EventKey(PortfolioEvent(p', k'))
    ensures p == p' && k == k'
  {
    NumbersHaveNoColon(p);
    NumbersHaveNoColon(p');
    PortfolioEventParts(FormatInt(p), KindName(k), FormatInt(p'), KindName(k'));
    FormatIntInjective(p, p');
    KindNameInjective(k, k');
  }

  lemma KindNameInjective(k: UserChange, k': UserChange)
    requires KindName(k) == KindName(k')
    ensures k == k'
  {
    assert KindName(k)[0] == (if k.Created? then 'C' else 'D') && KindName(k')[0] == (if k'.Created? then 'C' else 'D');
  }

  lemma FirstChar(e: Event)
    ensures EventKey(e) != "" && EventKey(e)[0] == if e.TradeEvent? then 't' else 'p'
  {}

  lemma EventKeyInjective(e: Event, e': Event)
    requires EventKey(e) == EventKey(e')
    ensures e == e'
  {
    FirstChar(e);
    FirstChar(e');
    match e
    case TradeEvent(id) => TradeKeyInjective(id, e'.id);
    case PortfolioEvent(p, k) => PortfolioEventKeyInjective(p, k, e'.portfolio, e'.kind);
  }

  // ---- the markers of the model ------------------------------------------------------------------

  /** User ids are strings; names gives the one of each user. */
  ghost predicate Names(names: UserId -> string) {
    forall u, v :: names(u) == names(v) ==> u == v
  }

  function DataKey(m: Mark, names: UserId -> string): string {
    match m
    case QuantityMark(h, _) => QuantityKey(h)
    case PortfolioMark(p, _) => PortfolioKey(p)
    case UserMark(u, _) => UserKey(names(u))
  }

  function KeyOf(m: Mark, names: UserId -> string): string {
    MarkerKey(DataKey(m, names), EventKey(m.event))
  }

  lemma NotInEither(a: string, b: string, ch: char)
    requires ch !in a && ch !in b
    ensures ch !in a + b
  {}

  lemma NumbersHaveNoBrace(n: int)
    ensures '}' !in FormatInt(n)
  {}

  lemma QuantityKeyIsBraceless(h: Holding)
    ensures '}' !in QuantityKey(h) && QuantityKey(h) != ""
  {
    NumbersHaveNoBrace(h.portfolio);
    NumbersHaveNoBrace(h.stock);
    NotInEither("portfolio:", FormatInt(h.portfolio), '}');
    NotInEither("portfolio:" + FormatInt(h.portfolio), ":stock:", '}');
    NotInEither("portfolio:" + FormatInt(h.portfolio) + ":stock:", FormatInt(h.stock), '}');
    NotInEither("portfolio:" + FormatInt(h.portfolio) + ":stock:" + FormatInt(h.stock), ":quantity", '}');
  }

  lemma PortfolioKeyIsBraceless(p: PortfolioId)
    ensures '}' !in PortfolioKey(p) && PortfolioKey(p) != ""
  {
    NumbersHaveNoBrace(p);
    NotInEither("pf:", FormatInt(p), '}');
  }

  lemma UserKeyIsBraceless(name: string)
    requires '}' !in name
    ensures '}' !in UserKey(name) && UserKey(name) != ""
  {
    NotInEither("usr:", name, '}');
  }

  lemma EventKeyIsBraceless(e: Event)
    ensures '}' !in EventKey(e)
  {
    match e
    case TradeEvent(id) =>
      NumbersHaveNoBrace(id);
      NotInEither("trade:", FormatInt(id), '}');
    case PortfolioEvent(p, k) =>
      NumbersHaveNoBrace(p);
      NotInEither("portfolio-user:", FormatInt(p), '}');
      NotInEither("portfolio-user:" + FormatInt(p), ":", '}');
      NotInEither("portfolio-user:" + FormatInt(p) + ":", KindName(k), '}');
  }

  /** Every marker lies in the slot of the key it guards, for users whose name has no closing brace. */
  lemma MarksShareSlots(m: Mark, names: UserId -> string)
    requires m.UserMark? ==> '}' !in names(m.user)
    ensures HashTag(KeyOf(m, names)) == HashTag(DataKey(m, names))
  {
    match m {
      case QuantityMark(h, _) => QuantityKeyIsBraceless(h);
      case PortfolioMark(p, _) => PortfolioKeyIsBraceless(p);
      case UserMark(u, _) => UserKeyIsBraceless(names(u));
    }
    MarkerSharesSlot(DataKey(m, names), EventKey(m.event));
  }

  function KindChar(m: Mark): char {
    match m
    case QuantityMark(_, _) => 'o'
    case PortfolioMark(_, _) => 'f'
    case UserMark(_, _) => 's'
  }

  lemma SecondChar(m: Mark, names: UserId -> string)
    ensures |DataKey(m, names)| > 1 && DataKey(m, names)[1] == KindChar(m)
  {}

  lemma PortfolioKeyInjective(p: PortfolioId, q: PortfolioId)
    requires PortfolioKey(p) == PortfolioKey(q)
    ensures p == q
  {
    StripPrefix("pf:", FormatInt(p), FormatInt(q));
    FormatIntInjective(p, q);
  }

  lemma UserKeyInjective(a: string, b: string)
    requires UserKey(a) == UserKey(b)
    ensures a == b
  {
    StripPrefix("usr:", a, b);
  }

  lemma DataKeyInjective(m: Mark, m': Mark, names: UserId -> string)
    requires Names(names) && DataKey(m, names) == DataKey(m', names) && m.event == m'.event
    ensures m == m'
  {
    SecondChar(m, names);
    SecondChar(m', names);
    match m
    case QuantityMark(h, _) => QuantityKeyInjective(h, m'.holding);
    case PortfolioMark(p, _) => PortfolioKeyInjective(p, m'.portfolio);
    case UserMark(u, _) => UserKeyInjective(names(u), names(m'.user));
  }

  /** Different markers are different keys. */
  lemma MarksAreDistinctKeys(m: Mark, m': Mark, names: UserId -> string)
    requires Names(names) && KeyOf(m, names) == KeyOf(m', names)
    ensures m == m'
  {
    EventKeyIsBraceless(m.event);
    EventKeyIsBraceless(m'.event);
    MarkerKeyInjective(DataKey(m, names), EventKey(m.event), DataKey(m', names), EventKey(m'.event));
    EventKeyInjective(m.event, m'.event);
    DataKeyInjective(m, m', names);
  }

  // ---- what the keys look like ---------------------------------------------------------------------

  lemma NumberExamples()
    ensures FormatInt(105) == "105" && FormatInt(-12) == "-12" && FormatInt(0) == "0"
    ensures FormatInt(7) == "7" && FormatInt(1) == "1" && FormatInt(3) == "3"
  {
    assert Decimal(1) == "1";
    assert Decimal(10) == "10";
    assert Decimal(105) == "105";
    assert Decimal(12) == "12";
  }

  lemma DataKeyExamples()
    ensures QuantityKey(Holding(1, 105)) == "portfolio:1:stock:105:quantity"
    ensures PortfolioKey(1) == "pf:1" && UserKey("ann") == "usr:ann"
  {
    NumberExamples();
    assert "portfolio:" + "1" + ":stock:" == "portfolio:1:stock:";
  }

  lemma EventKeyExamples()
    ensures EventKey(TradeEvent(7)) == "trade:7"
    ensures EventKey(PortfolioEvent(3, Created)) == "portfolio-user:3:CREATED"
    ensures EventKey(PortfolioEvent(3, Deleted)) == "portfolio-user:3:DELETED"
  {
    NumberExamples();
  }

  lemma TradeMarkerExamples()
    ensures MarkerKey(QuantityKey(Holding(1, 105)), EventKey(TradeEvent(7))) ==
      "applied:{" + "portfolio:1:stock:105:quantity" + "}:" + "trade:7"
    ensures MarkerKey(PortfolioKey(1), EventKey(TradeEvent(7))) == "applied:{pf:1}:trade:7"
    ensures MarkerKey(UserKey("ann"), EventKey(TradeEvent(7))) == "applied:{usr:ann}:trade:7"
  {
    DataKeyExamples();
    EventKeyExamples();
  }

  lemma PortfolioMarkerExamples()
    ensures MarkerKey(UserKey("ann"), EventKey(PortfolioEvent(3, Created))) ==
      "applied:{usr:ann}:" + "portfolio-user:3:CREATED"
    ensures MarkerKey(UserKey("ann"), EventKey(PortfolioEvent(3, Deleted))) ==
      "applied:{usr:ann}:" + "portfolio-user:3:DELETED"
  {
    DataKeyExamples();
    EventKeyExamples();
    assert "applied:{" + "usr:ann" + "}:" == "applied:{usr:ann}:";
  }

  /** The markers of trade 7 on portfolio 1, stock 105 and the user ann, and of the two events of portfolio 3. */
  lemma MarkerExamples(names: UserId -> string)
    requires names(5) == "ann"
    ensures KeyOf(QuantityMark(Holding(1, 105), TradeEvent(7)), names) ==
      "applied:{" + "portfolio:1:stock:105:quantity" + "}:" + "trade:7"
    ensures KeyOf(PortfolioMark(1, TradeEvent(7)), names) == "applied:{pf:1}:trade:7"
    ensures KeyOf(UserMark(5, TradeEvent(7)), names) == "applied:{usr:ann}:trade:7"
    ensures KeyOf(UserMark(5, PortfolioEvent(3, Created)), names) == "applied:{usr:ann}:" + "portfolio-user:3:CREATED"
    ensures KeyOf(UserMark(5, PortfolioEvent(3, Deleted)), names) == "applied:{usr:ann}:" + "portfolio-user:3:DELETED"
  {
    TradeMarkerExamples();
    PortfolioMarkerExamples();
  }
}
