/**
 * The product reference table (ProductMap) and the line parsers (FormatParser):
 * comma splitting, splitting that skips one character after each comma, the
 * fractional bond-price decoder and the order-book line tokeniser.
 */
module Utils {
  import opened Types

  // ---------------------------------------------------------------------------
  // ProductMap
  // ---------------------------------------------------------------------------

  function BondOf(id: string, coupon: real, maturityYear: int): Bond
  {
    Bond(id, CUSIP, id, coupon, Date(maturityYear, 12, 31))
  }

  /** GetTickers: the standard tickers, in order. */
  function Tickers(): (ts: seq<string>)
    ensures |ts| == 7
    ensures forall i, j :: 0 <= i < j < |ts| ==> ts[i] != ts[j]
    ensures forall i :: 0 <= i < |ts| ==> ts[i] != "" && NoComma(ts[i])
  {
    ["B02y", "B03y", "B05y", "B07y", "B10y", "B20y", "B30y"]
  }

  /** GetProducts: the seven bonds, each identified by its ticker. */
  function Products(): (bonds: seq<Bond>)
    ensures |bonds| == |Tickers()|
    ensures forall i :: 0 <= i < |bonds| ==>
              bonds[i].productId == Tickers()[i] && bonds[i].ticker == Tickers()[i]
  {
    [BondOf("B02y", 0.02, 2026), BondOf("B03y", 0.025, 2027), BondOf("B05y", 0.03, 2029),
     BondOf("B07y", 0.035, 2031), BondOf("B10y", 0.04, 2034), BondOf("B20y", 0.045, 2044),
     BondOf("B30y", 0.05, 2054)]
  }

  /**
   * The map that inserting `bonds` one by one into an empty unordered_map,
   * keyed by product id, produces: an insert never overwrites a present key.
   */
  function KeyedById(bonds: seq<Bond>): map<string, Bond>
  {
    if bonds == [] then map[]
    else
      var m := KeyedById(bonds[..|bonds| - 1]);
      var b := bonds[|bonds| - 1];
      if b.productId in m then m else m[b.productId := b]
  }

  /** The table GetProductMap returns. */
  function ProductTable(): map<string, Bond>
  {
    KeyedById(Products())
  }

  /** Keys of KeyedById are exactly the product ids, each mapped to a bond with that id. */
  lemma {:induction false} KeyedByIdSpec(bonds: seq<Bond>)
    ensures KeyedById(bonds).Keys == set b | b in bonds :: b.productId
    ensures forall k :: k in KeyedById(bonds) ==>
              KeyedById(bonds)[k].productId == k && KeyedById(bonds)[k] in bonds
  {
    if bonds != [] {
      var init := bonds[..|bonds| - 1];
      KeyedByIdSpec(init);
      assert bonds == init + [bonds[|bonds| - 1]];
      assert (set b | b in bonds :: b.productId) == (set b | b in init :: b.productId) + {bonds[|bonds| - 1].productId};
    }
  }

  /** GetTickers lists exactly the keys of GetProductMap, and every bond is filed under its own id. */
  lemma ProductTableKeys()
    ensures ProductTable().Keys == set t | t in Tickers()
    ensures forall k :: k in ProductTable() ==> ProductTable()[k].productId == k && ProductTable()[k].ticker == k
  {
    var bonds := Products();
    KeyedByIdSpec(bonds);
    var ids := set b | b in bonds :: b.productId;
    assert ids == set t | t in Tickers() by {
      forall t | t in Tickers() ensures t in ids {
        var i :| 0 <= i < |Tickers()| && Tickers()[i] == t;
        assert bonds[i] in bonds;
      }
    }
    forall k | k in ProductTable() ensures ProductTable()[k].ticker == k {
      var b := ProductTable()[k];
      var i :| 0 <= i < |bonds| && bonds[i] == b;
    }
  }

  /** GetProductMap: builds the bond list and inserts each bond under its product id. */
  method GetProductMap() returns (result: map<string, Bond>)
    ensures result.Keys == set t | t in Tickers()
    ensures forall k :: k in result ==> result[k].productId == k && result[k] in Products()
    ensures result == ProductTable()
  {
    var bonds := Products();
    result := InsertById(bonds);
    ProductTableKeys();
    KeyedByIdSpec(bonds);
  }

  /** The loop of GetProductMap: insert each bond under its product id, keeping the first of a repeated id. */
  method InsertById(bonds: seq<Bond>) returns (result: map<string, Bond>)
    ensures result == KeyedById(bonds)
  {
    result := map[];
    for i := 0 to |bonds|
      invariant result == KeyedById(bonds[..i])
    {
      assert bonds[..i + 1][..i] == bonds[..i];
      var b := bonds[i];
      if b.productId !in result {
        result := result[b.productId := b];
      }
    }
    assert bonds[..|bonds|] == bonds;
  }

  /** operator[] on the table: a present ticker's bond, else a default-constructed Bond. */
  function LookupBond(ticker: string): (b: Bond)
    ensures ticker in ProductTable() ==> b == ProductTable()[ticker]
  {
    if ticker in ProductTable() then ProductTable()[ticker] else DefaultBond()
  }

  /** A listed ticker is a key of the product table, and looking it up gives the bond of that ticker. */
  lemma ListedTicker(t: string)
    requires t in Tickers()
    ensures t in ProductTable() && t in (set u | u in Tickers())
    ensures LookupBond(t) == ProductTable()[t] && LookupBond(t).ticker == t
  {
    ProductTableKeys();
  }

  /** Stands for Bond(): its fields are not part of this model; identifiers are empty. */
  function DefaultBond(): Bond
  {
    Bond("", CUSIP, "", 0.0, Date(0, 0, 0))
  }

  // ---------------------------------------------------------------------------
  // Splitting on ','
  // ---------------------------------------------------------------------------

  /** Index of the first `c` in `s`, or |s| when there is none. */
  function IndexOf(s: string, c: char): (k: nat)
    ensures k <= |s| && (k < |s| ==> s[k] == c)
    ensures forall i :: 0 <= i < k ==> s[i] != c
  {
    if s == [] then 0 else if s[0] == c then 0 else 1 + IndexOf(s[1..], c)
  }

  lemma IndexOfIs(s: string, c: char, k: nat)
    requires k <= |s| && (k < |s| ==> s[k] == c)
    requires forall i :: 0 <= i < k ==> s[i] != c
    ensures IndexOf(s, c) == k
  {
  }

  /**
   * What repeated std::getline(buffer, token, ',') yields: the pieces between
   * commas, empty ones included, with no piece after a final comma.
   */
  function SplitComma(s: string): seq<string>
    decreases |s|
  {
    if s == [] then []
    else
      var k := IndexOf(s, ',');
      if k == |s| then [s] else [s[..k]] + SplitComma(s[k + 1..])
  }

  ghost predicate NoComma(t: string)
  {
    forall i :: 0 <= i < |t| ==> t[i] != ','
  }

  /** One getline on text[pos..]: the token text[pos..j] ends at the comma at j, or at the end. */
  lemma SplitCommaStep(text: string, pos: nat, j: nat)
    requires pos < |text| && pos <= j <= |text|
    requires forall i :: pos <= i < j ==> text[i] != ','
    requires j < |text| ==> text[j] == ','
    ensures SplitComma(text[pos..]) ==
              [text[pos..j]] + (if j < |text| then SplitComma(text[j + 1..]) else [])
    ensures SplitSkipping(text[pos..]) ==
              [text[pos..j]] + (if j < |text| then SplitSkipping(DropFirst(text[j + 1..])) else [])
  {
    var s := text[pos..];
    var k := j - pos;
    IndexOfIs(s, ',', k);
    assert s[..k] == text[pos..j];
    if j < |text| {
      assert s[k + 1..] == text[j + 1..];
      assert SplitComma(s) == [s[..k]] + SplitComma(s[k + 1..]);
      assert SplitSkipping(s) == [s[..k]] + SplitSkipping(DropFirst(s[k + 1..]));
    } else {
      assert text[pos..j] == s;
      assert SplitComma(s) == [s];
      assert SplitSkipping(s) == [s];
    }
  }

  /** The tokens joined with `sep` between neighbours. */
  function Join(ts: seq<string>, sep: string): string
  {
    if ts == [] then "" else if |ts| == 1 then ts[0] else ts[0] + sep + Join(ts[1..], sep)
  }

  /** No token contains ','. */
  lemma {:induction false} SplitCommaNoComma(s: string)
    ensures forall t :: t in SplitComma(s) ==> NoComma(t)
    decreases |s|
  {
    if s != [] {
      var k := IndexOf(s, ',');
      if k < |s| {
        SplitCommaNoComma(s[k + 1..]);
      }
    }
  }

  lemma JoinCons(h: string, tail: seq<string>, sep: string)
    requires tail != []
    ensures Join([h] + tail, sep) == h + sep + Join(tail, sep)
  {
    assert ([h] + tail)[1..] == tail;
  }

  lemma SplitCommaNonEmpty(s: string)
    requires s != []
    ensures SplitComma(s) != []
  {
  }

  /** Without its final comma, if any: what the tokens of a line join back to. */
  function Unterminated(s: string): string
  {
    if s != [] && s[|s| - 1] == ',' then s[..|s| - 1] else s
  }

  /** The head token, a comma and the rejoined rest make up the whole line again. */
  lemma JoinAfterComma(s: string, k: nat, restJoined: string)
    requires k < |s| && s[k] == ',' && k + 1 < |s|
    requires restJoined == Unterminated(s[k + 1..])
    ensures s[..k] + "," + restJoined == Unterminated(s)
  {
    var rest := s[k + 1..];
    assert rest[|rest| - 1] == s[|s| - 1];
    if s[|s| - 1] == ',' {
      assert s[..|s| - 1] == s[..k] + "," + rest[..|rest| - 1];
    } else {
      assert s == s[..k] + "," + rest;
    }
  }

  /**
   * Joining the tokens with ',' gives the input back, except that a final
   * comma is lost (it produces no trailing empty token).
   */
  lemma {:induction false} JoinSplitComma(s: string)
    ensures Join(SplitComma(s), ",") == Unterminated(s)
    decreases |s|
  {
    if s != [] {
      var k := IndexOf(s, ',');
      if k == |s| {
        assert SplitComma(s) == [s];
      } else {
        var rest := s[k + 1..];
        assert SplitComma(s) == [s[..k]] + SplitComma(rest);
        if rest == [] {
          assert SplitComma(s) == [s[..k]];
          assert s[..|s| - 1] == s[..k];
        } else {
          JoinSplitComma(rest);
          SplitCommaNonEmpty(rest);
          JoinCons(s[..k], SplitComma(rest), ",");
          JoinAfterComma(s, k, Join(SplitComma(rest), ","));
        }
      }
    }
  }

  /** In h + sep + rest, with h comma-free and sep starting with ',', the first token is h. */
  lemma HeadToken(h: string, sep: string, rest: string)
    requires NoComma(h) && sep != [] && sep[0] == ','
    ensures IndexOf(h + sep + rest, ',') == |h|
    ensures (h + sep + rest)[..|h|] == h
    ensures (h + sep + rest)[|h| + 1..] == sep[1..] + rest
  {
    var s := h + sep + rest;
    assert forall i :: 0 <= i < |h| ==> s[i] == h[i];
    IndexOfIs(s, ',', |h|);
  }

  /** Splitting a join of comma-free tokens, the last one non-empty, gives the tokens back. */
  lemma {:induction false} SplitJoinComma(ts: seq<string>)
    requires forall t :: t in ts ==> NoComma(t)
    requires ts != [] ==> ts[|ts| - 1] != []
    ensures SplitComma(Join(ts, ",")) == ts
  {
    if |ts| == 1 {
      assert NoComma(ts[0]) by { assert ts[0] in ts; }
      IndexOfIs(ts[0], ',', |ts[0]|);
    } else if |ts| > 1 {
      var rest := Join(ts[1..], ",");
      assert Join(ts, ",") == ts[0] + "," + rest;
      assert NoComma(ts[0]) by { assert ts[0] in ts; }
      HeadToken(ts[0], ",", rest);
      assert ","[1..] + rest == rest;
      SplitJoinComma(ts[1..]);
      assert ts == [ts[0]] + ts[1..];
    }
  }

  /** One std::getline(buffer, token, ','): the characters from pos up to the next ',' or the end. */
  method GetToken(text: string, pos: nat) returns (token: string, j: nat)
    requires pos <= |text|
    ensures pos <= j <= |text| && token == text[pos..j]
    ensures forall i :: pos <= i < j ==> text[i] != ','
    ensures j < |text| ==> text[j] == ','
  {
    token := "";
    j := pos;
    while j < |text| && text[j] != ','
      invariant pos <= j <= |text|
      invariant token == text[pos..j]
      invariant forall i :: pos <= i < j ==> text[i] != ','
    {
      token := token + [text[j]];
      j := j + 1;
    }
  }

  /** ParseCommaSepLine: repeated getline on ',' over the whole text. */
  method ParseCommaSepLine(text: string) returns (output: seq<string>)
    ensures output == SplitComma(text)
  {
    output := [];
    var pos := 0;
    while pos < |text|
      invariant 0 <= pos <= |text|
      invariant output + SplitComma(text[pos..]) == SplitComma(text)
      decreases |text| - pos
    {
      var token, j := GetToken(text, pos);
      SplitCommaStep(text, pos, j);
      var next := if j < |text| then j + 1 else j;
      assert SplitComma(text[pos..]) == [token] + SplitComma(text[next..]) by {
        if j == |text| {
          assert text[next..] == [];
        }
      }
      assert (output + [token]) + SplitComma(text[next..]) == output + ([token] + SplitComma(text[next..]));
      output := output + [token];
      pos := next;
    }
    assert text[pos..] == [];
  }

  // ---------------------------------------------------------------------------
  // Splitting on ',' and skipping the character after each comma
  // ---------------------------------------------------------------------------

  function DropFirst(s: string): string
  {
    if s == [] then [] else s[1..]
  }

  /** What Parse yields: getline on ',' followed by ignoring one character, repeated. */
  function SplitSkipping(s: string): seq<string>
    decreases |s|
  {
    if s == [] then []
    else
      var k := IndexOf(s, ',');
      if k == |s| then [s] else [s[..k]] + SplitSkipping(DropFirst(s[k + 1..]))
  }

  /** Tokens written as "a, b, c" (comma and one space) come back unchanged. */
  lemma {:induction false} SplitSkippingJoin(ts: seq<string>)
    requires forall t :: t in ts ==> NoComma(t)
    requires ts != [] ==> ts[|ts| - 1] != []
    ensures SplitSkipping(Join(ts, ", ")) == ts
  {
    if |ts| == 1 {
      assert NoComma(ts[0]) by { assert ts[0] in ts; }
      IndexOfIs(ts[0], ',', |ts[0]|);
    } else if |ts| > 1 {
      var rest := Join(ts[1..], ", ");
      assert Join(ts, ", ") == ts[0] + ", " + rest;
      assert NoComma(ts[0]) by { assert ts[0] in ts; }
      HeadToken(ts[0], ", ", rest);
      assert DropFirst(", "[1..] + rest) == rest;
      SplitSkippingJoin(ts[1..]);
      assert ts == [ts[0]] + ts[1..];
    }
  }

  /** Parse: getline on ',' then buffer.ignore(), until getline extracts nothing. */
  method Parse(text: string) returns (output: seq<string>)
    ensures output == SplitSkipping(text)
  {
    output := [];
    var pos := 0;
    while pos < |text|
      invariant 0 <= pos <= |text|
      invariant output + SplitSkipping(text[pos..]) == SplitSkipping(text)
      decreases |text| - pos
    {
      var token, j := GetToken(text, pos);
      SplitCommaStep(text, pos, j);
      var next := j;
      if j < |text| {
        // the ',' is consumed, then ignore() skips one more character when one is left
        next := if j + 1 < |text| then j + 2 else j + 1;
        assert DropFirst(text[j + 1..]) == text[next..];
      } else {
        assert text[next..] == [];
      }
      output := output + [token];
      pos := next;
    }
    assert text[pos..] == [];
  }

  // ---------------------------------------------------------------------------
  // Fractional bond prices
  // ---------------------------------------------------------------------------

  /** The character c_str() has at index i: the terminating NUL at i == |s|. */
  function CharAt(s: string, i: nat): char
    requires i <= |s|
  {
    if i < |s| then s[i] else '\0'
  }

  /** `c - '0'`, taken without checking that c is a digit. */
  function DigitValue(c: char): int
  {
    c as int - '0' as int
  }

  /** 99 when the string starts with '9', else 100. */
  function WholePart(s: string): int
  {
    if CharAt(s, 0) == '9' then 99 else 100
  }

  /** Where the 32nds digits start: after "99-" or after "100-". */
  function FractionOffset(s: string): nat
  {
    if CharAt(s, 0) == '9' then 3 else 4
  }

  /** The decoder reads the two 32nds digits and the character after them, which may be the NUL. */
  predicate PriceReadable(s: string)
  {
    |s| >= FractionOffset(s) + 2
  }

  /** The 32nds read from the two digits at the offset. */
  function ThirtySeconds(s: string): int
    requires PriceReadable(s)
  {
    DigitValue(s[FractionOffset(s)]) * 10 + DigitValue(s[FractionOffset(s) + 1])
  }

  /**
   * ParsePriceFormat as the source writes it: the third character is always
   * taken as a digit, so '+' counts as -5 and a missing third character (the
   * NUL terminator) as -48.
   */
  function ParsePriceFormat(s: string): (r: real)
    requires PriceReadable(s)
    ensures FractionOffset(s) + 2 < |s| && s[FractionOffset(s) + 2] != '+' ==> r == DecodeFractionalPrice(s)
    ensures FractionOffset(s) + 2 < |s| && s[FractionOffset(s) + 2] == '+' ==> r == DecodeFractionalPrice(s) - 9.0 / 256.0
    ensures FractionOffset(s) + 2 == |s| ==> r == DecodeFractionalPrice(s) - 48.0 / 256.0
  {
    var second := DigitValue(CharAt(s, FractionOffset(s) + 2));
    WholePart(s) as real + ThirtySeconds(s) as real / 32.0 + second as real / 256.0
  }

  /** The 256ths the intended notation gives the character after the 32nds. */
  function EighthsPart(s: string): int
    requires PriceReadable(s)
  {
    var i := FractionOffset(s) + 2;
    if i == |s| then 0 else if s[i] == '+' then 4 else DigitValue(s[i])
  }

  /**
   * The decoder as intended: "+" is half a 32nd (1/64) and a missing third
   * character adds nothing. Every other input decodes as ParsePriceFormat does.
   */
  function DecodeFractionalPrice(s: string): (r: real)
    requires PriceReadable(s)
    ensures var i := FractionOffset(s) + 2;
            i == |s| || s[i] == '+' || '0' <= s[i] <= '7' ==>
              WholePart(s) as real + ThirtySeconds(s) as real / 32.0 <= r
              && r < WholePart(s) as real + (ThirtySeconds(s) + 1) as real / 32.0
  {
    WholePart(s) as real + ThirtySeconds(s) as real / 32.0 + EighthsPart(s) as real / 256.0
  }

  /** What follows the two 32nds digits in a quoted price. */
  datatype Tail = NoTail | Plus | Eighths(d: nat)

  function TailValue(t: Tail): int
  {
    match t
    case NoTail => 0
    case Plus => 4
    case Eighths(d) => d
  }

  function DigitChar(d: nat): char
    requires d < 10
  {
    ('0' as int + d) as char
  }

  /** The quoted form "99-16", "99-16+" or "99-163" of whole + n32/32 + tail/256. */
  function FormatFractional(whole: int, n32: nat, tail: Tail): string
    requires whole == 99 || whole == 100
    requires n32 < 32 && (tail.Eighths? ==> tail.d < 10)
  {
    (if whole == 99 then "99-" else "100-") + [DigitChar(n32 / 10), DigitChar(n32 % 10)]
      + match tail
        case NoTail => ""
        case Plus => "+"
        case Eighths(d) => [DigitChar(d)]
  }

  lemma FormatFractionalShape(whole: int, n32: nat, tail: Tail)
    requires whole == 99 || whole == 100
    requires n32 < 32 && (tail.Eighths? ==> tail.d < 10)
    ensures var s := FormatFractional(whole, n32, tail);
      PriceReadable(s) && WholePart(s) == whole && ThirtySeconds(s) == n32
      && EighthsPart(s) == TailValue(tail)
      && (tail.Eighths? ==> CharAt(s, FractionOffset(s) + 2) == DigitChar(tail.d))
      && (tail.Plus? ==> CharAt(s, FractionOffset(s) + 2) == '+')
      && (tail.NoTail? ==> CharAt(s, FractionOffset(s) + 2) == '\0')
  {
    var s := FormatFractional(whole, n32, tail);
    assert CharAt(s, 0) == '9' <==> whole == 99;
    assert DigitValue(DigitChar(n32 / 10)) == n32 / 10;
  }

  /** Decoding a quoted price gives its value back: the intended notation round-trips. */
  lemma FractionalRoundTrip(whole: int, n32: nat, tail: Tail)
    requires whole == 99 || whole == 100
    requires n32 < 32 && (tail.Eighths? ==> tail.d < 10)
    ensures PriceReadable(FormatFractional(whole, n32, tail))
    ensures DecodeFractionalPrice(FormatFractional(whole, n32, tail))
            == whole as real + n32 as real / 32.0 + TailValue(tail) as real / 256.0
  {
    FormatFractionalShape(whole, n32, tail);
  }

  /** When the third fraction character is present and not '+', both decoders agree. */
  lemma DecodersAgree(s: string)
    requires PriceReadable(s)
    requires FractionOffset(s) + 2 < |s| && s[FractionOffset(s) + 2] != '+'
    ensures DecodeFractionalPrice(s) == ParsePriceFormat(s)
  {
  }

  /** The source's own example: "99-160" decodes to 99.5. */
  lemma ParsePriceFormatExample()
    ensures PriceReadable("99-160") && ParsePriceFormat("99-160") == 99.5
  {
    assert CharAt("99-160", 0) == '9';
  }

  /** As written, "100-08+" decodes to 100 + 8/32 - 5/256, below the 100 + 8/32 + 1/64 it quotes. */
  lemma PlusSuffixUndershoots()
    ensures PriceReadable("100-08+")
    ensures ParsePriceFormat("100-08+") == 100.23046875
    ensures DecodeFractionalPrice("100-08+") == 100.265625
  {
    assert CharAt("100-08+", 0) == '1';
    FormatFractionalShape(100, 8, Plus);
    assert FormatFractional(100, 8, Plus) == "100-08+";
  }

  /** As written, "99-16" reads the terminating NUL as a digit and decodes to 99.3125, not 99.5. */
  lemma ShortFractionReadsTerminator()
    ensures PriceReadable("99-16")
    ensures ParsePriceFormat("99-16") == 99.3125
    ensures DecodeFractionalPrice("99-16") == 99.5
  {
    assert CharAt("99-16", 0) == '9';
    assert CharAt("99-16", 5) == '\0';
    FormatFractionalShape(99, 16, NoTail);
    assert FormatFractional(99, 16, NoTail) == "99-16";
  }

  // ---------------------------------------------------------------------------
  // Order-book lines
  // ---------------------------------------------------------------------------

  function Min(a: int, b: int): int
  {
    if a < b then a else b
  }

  /** How many prices ParseOrderBook decodes from a split line: at most ten after the ticker. */
  function PriceCount(tokens: seq<string>): nat
    requires tokens != []
  {
    Min(|tokens| - 1, 10)
  }

  /** Every token ParseOrderBook will decode can be read. */
  ghost predicate OrderBookTokensReadable(tokens: seq<string>)
  {
    tokens != [] ==> forall i :: 1 <= i <= PriceCount(tokens) ==> PriceReadable(tokens[i])
  }

  /**
   * ParseOrderBook: the first token as ticker and the next prices (at most
   * ten), each decoded by ParsePriceFormat as the source writes it.
   */
  method ParseOrderBook(text: string) returns (ticker: string, px: seq<real>)
    requires OrderBookTokensReadable(SplitComma(text))
    ensures SplitComma(text) == [] ==> ticker == "" && px == []
    ensures SplitComma(text) != [] ==>
              ticker == SplitComma(text)[0] && |px| == PriceCount(SplitComma(text))
              && forall i :: 0 <= i < |px| ==> px[i] == ParsePriceFormat(SplitComma(text)[i + 1])
  {
    var splitted := ParseCommaSepLine(text);
    if splitted == [] {
      return "", [];
    }
    ticker := splitted[0];
    px := [];
    var count := if |splitted| < 11 then |splitted| - 1 else 10;
    var i := 1;
    while i <= count
      invariant 1 <= i <= count + 1
      invariant |px| == i - 1
      invariant forall j :: 0 <= j < |px| ==> px[j] == ParsePriceFormat(splitted[j + 1])
    {
      px := px + [ParsePriceFormat(splitted[i])];
      i := i + 1;
    }
  }
}
