/**
 The quote line of the runtime log and the dashboard's parser for it.

 Values are printed with two decimals, so they are counted in cents. The parser is
 the dashboard's regular expression written out: its runs of characters are delimited by
 characters outside the run, so it never has more than one way to match.
 */
module QuoteLog {
  import opened Seqs

  // ----------------------------------------------------------------- printing

  /** The values of one line, in cents. */
  datatype QuoteLine = QuoteLine(yesBid: nat, yesAsk: nat, noBid: nat, noAsk: nat, price: nat, diff: Option<int>)

  predicate IsDigit(c: char) { '0' <= c <= '9' }

  predicate AllDigits(s: string) { forall i :: 0 <= i < |s| ==> IsDigit(s[i]) }

  function DigitChar(d: nat): (c: char)
    requires d < 10
    ensures IsDigit(c) && DigitValue(c) == d
  {
    '0' + d as char
  }

  function DigitValue(c: char): nat
    requires IsDigit(c)
  {
    (c - '0') as nat
  }

  function Digits(n: nat): (s: string)
    ensures |s| > 0 && AllDigits(s)
  {
    if n < 10 then [DigitChar(n)] else Digits(n / 10) + [DigitChar(n % 10)]
  }

  /** `%.2f` of a non-negative number of cents. */
  function TwoDecimals(cents: nat): string {
    Digits(cents / 100) + "." + Hundredths(cents % 100)
  }

  function Hundredths(n: nat): string
    requires n < 100
  {
    [DigitChar(n / 10), DigitChar(n % 10)]
  }

  const UP := "\U{25B2}"
  const DOWN := "\U{25BC}"
  const RISING := "\U{25B3}"
  const FALLING := "\U{25BD}"

  function Magnitude(cents: int): nat { if cents >= 0 then cents else -cents }

  function Sign(cents: int): char { if cents >= 0 then '+' else '-' }

  function Arrow(cents: int): string { if cents >= 0 then RISING else FALLING }

  function SignedUsd(cents: int): string {
    Arrow(cents) + " " + [Sign(cents)] + "$" + TwoDecimals(Magnitude(cents))
  }

  function OptionalSignedUsd(cents: Option<int>): string {
    if cents == None then "--" else SignedUsd(cents.value)
  }

  function Side(bid: nat, ask: nat): string {
    " bid " + (TwoDecimals(bid) + (" ask " + (TwoDecimals(ask) + " | ")))
  }

  function Message(q: QuoteLine): string {
    UP + (Side(q.yesBid, q.yesAsk) + (DOWN + (Side(q.noBid, q.noAsk) + PricePart(q))))
  }

  function PricePart(q: QuoteLine): string {
    "$" + (TwoDecimals(q.price) + (" " + OptionalSignedUsd(q.diff)))
  }

  // ------------------------------------------------------------------ parsing

  /** What a regular expression over text takes for white space. */
  predicate IsSpace(c: char) {
    || c == ' ' || '\t' <= c <= '\r' || '\U{1C}' <= c <= '\U{1F}' || c == '\U{85}' || c == '\U{A0}'
    || c == '\U{1680}' || '\U{2000}' <= c <= '\U{200A}' || '\U{2028}' <= c <= '\U{2029}'
    || c == '\U{202F}' || c == '\U{205F}' || c == '\U{3000}'
  }

  predicate InWord(c: char) { !IsSpace(c) }

  predicate InNumber(c: char) { IsDigit(c) || c == '.' }

  /** Length of the longest prefix of characters that satisfy `p`. */
  function Run(s: string, p: char -> bool): (n: nat)
    ensures n <= |s|
  {
    if s == "" || !p(s[0]) then 0 else 1 + Run(s[1..], p)
  }

  datatype Match = NoMatch | Matched(text: string, rest: string)

  /** One or more characters satisfying `p`, as many as there are. */
  function Many(s: string, p: char -> bool): Match {
    var n := Run(s, p);
    if n == 0 then NoMatch else Matched(s[..n], s[n..])
  }

  function Literal(s: string, text: string): Match {
    if text <= s then Matched(text, s[|text|..]) else NoMatch
  }

  datatype SideMatch = NoSide | SideMatched(bid: string, ask: string, rest: string)

  /** One side of the book: an arrow, the bid and the ask as words, and the bar behind them. */
  function ParseSide(s: string): SideMatch {
    var arrow := Many(s, InWord);
    if arrow == NoMatch then NoSide else
    var bidMark := Literal(arrow.rest, " bid ");
    if bidMark == NoMatch then NoSide else
    var bid := Many(bidMark.rest, InWord);
    if bid == NoMatch then NoSide else
    var askMark := Literal(bid.rest, " ask ");
    if askMark == NoMatch then NoSide else
    var ask := Many(askMark.rest, InWord);
    if ask == NoMatch then NoSide else
    var bar := Literal(ask.rest, " | ");
    if bar == NoMatch then NoSide else SideMatched(bid.text, ask.text, bar.rest)
  }

  /** The optional last column: an arrow and a signed amount in dollars, or nothing. */
  function ParseDiff(s: string): Option<string> {
    var space := Literal(s, " ");
    if space == NoMatch then None else
    var arrow := Many(space.rest, InWord);
    if arrow == NoMatch then None else
    var gap := Literal(arrow.rest, " ");
    if gap == NoMatch || gap.rest == "" || (gap.rest[0] != '+' && gap.rest[0] != '-') then None else
    var dollar := Literal(gap.rest[1..], "$");
    if dollar == NoMatch then None else
    var amount := Many(dollar.rest, InNumber);
    if amount == NoMatch then None else Some([gap.rest[0]] + "$" + amount.text)
  }

  datatype Groups = Groups(yesBid: string, yesAsk: string, noBid: string, noAsk: string, price: string, diff: Option<string>)

  function ParseMessage(s: string): Option<Groups> {
    var yes := ParseSide(s);
    if yes == NoSide then None else
    var no := ParseSide(yes.rest);
    if no == NoSide then None else
    var dollar := Literal(no.rest, "$");
    if dollar == NoMatch then None else
    var price := Many(dollar.rest, InNumber);
    if price == NoMatch then None else
    Some(Groups(yes.bid, yes.ask, no.bid, no.ask, price.text, ParseDiff(price.rest)))
  }

  function Pow10(n: nat): (p: nat)
    ensures p > 0
  {
    if n == 0 then 1 else 10 * Pow10(n - 1)
  }

  function NumberOf(s: string): nat
    requires AllDigits(s)
  {
    if s == "" then 0 else 10 * NumberOf(s[..|s| - 1]) + DigitValue(s[|s| - 1])
  }

  /** Reading a decimal number; `None` is a conversion error. */
  function ParseDecimal(s: string): Option<real> {
    var n := Run(s, IsDigit);
    RunOnly(s, IsDigit);
    if n == |s| then (if n == 0 then None else Some(NumberOf(s) as real))
    else if s[n] == '.' && AllDigits(s[n + 1..]) && |s| > 1 then
      Some(NumberOf(s[..n]) as real + NumberOf(s[n + 1..]) as real / Pow10(|s| - n - 1) as real)
    else None
  }

  /** The difference column: a sign, a dollar to be removed, and a decimal number. */
  function ParseSigned(s: string): Option<real> {
    if |s| < 2 || s[1] != '$' || (s[0] != '+' && s[0] != '-') then None else
    var amount := ParseDecimal(s[2..]);
    if amount == None then None else Some(if s[0] == '-' then -amount.value else amount.value)
  }

  datatype Sample = Sample(tsMs: int, yesBid: real, yesAsk: real, noBid: real, noAsk: real, price: real, diff: Option<real>)

  /** A sample from the matched groups, unless a number cannot be converted. */
  function ToSample(tsMs: int, g: Groups): Option<Sample> {
    var yesBid, yesAsk, noBid, noAsk, price :=
      ParseDecimal(g.yesBid), ParseDecimal(g.yesAsk), ParseDecimal(g.noBid), ParseDecimal(g.noAsk), ParseDecimal(g.price);
    var diff := if g.diff == None then None else ParseSigned(g.diff.value);
    if yesBid == None || yesAsk == None || noBid == None || noAsk == None || price == None
       || (g.diff.Some? && diff == None)
    then None
    else Some(Sample(tsMs, yesBid.value, yesAsk.value, noBid.value, noAsk.value, price.value, diff))
  }

  // --------------------------------------------------------------- round trip

  lemma {:induction false} RunOnly(s: string, p: char -> bool)
    ensures forall i :: 0 <= i < Run(s, p) ==> p(s[i])
    ensures Run(s, p) < |s| ==> !p(s[Run(s, p)])
  {
    if s != "" && p(s[0]) {
      RunOnly(s[1..], p);
      forall i | 0 <= i < Run(s, p)
        ensures p(s[i])
      {
        if i > 0 { assert s[i] == s[1..][i - 1]; }
      }
    }
  }

  /** A run ends where the next character is outside it. */
  lemma {:induction false} RunStops(w: string, rest: string, p: char -> bool)
    requires forall i :: 0 <= i < |w| ==> p(w[i])
    requires rest != "" ==> !p(rest[0])
    ensures Run(w + rest, p) == |w|
  {
    if w == "" {
      assert w + rest == rest;
    } else {
      assert (w + rest)[1..] == w[1..] + rest;
      RunStops(w[1..], rest, p);
    }
  }

  lemma ManyStops(w: string, rest: string, p: char -> bool)
    requires w != "" && forall i :: 0 <= i < |w| ==> p(w[i])
    requires rest != "" ==> !p(rest[0])
    ensures Many(w + rest, p) == Matched(w, rest)
  {
    RunStops(w, rest, p);
    assert (w + rest)[..|w|] == w && (w + rest)[|w|..] == rest;
  }

  lemma LiteralMatches(text: string, rest: string)
    ensures Literal(text + rest, text) == Matched(text, rest)
  {
    assert (text + rest)[|text|..] == rest;
  }

  lemma {:induction false} DigitsRead(n: nat)
    ensures NumberOf(Digits(n)) == n
  {
    if n >= 10 {
      DigitsRead(n / 10);
      var s := Digits(n / 10) + [DigitChar(n % 10)];
      assert s[..|s| - 1] == Digits(n / 10);
    }
  }

  lemma HundredthsRead(n: nat)
    requires n < 100
    ensures AllDigits(Hundredths(n)) && NumberOf(Hundredths(n)) == n
  {
    var s := Hundredths(n);
    assert s[..1] == [DigitChar(n / 10)] && s[..1][..0] == "";
    assert NumberOf(s[..1]) == n / 10;
  }

  /** Reading back what `TwoDecimals` prints. */
  lemma DecimalRoundTrip(cents: nat)
    ensures ParseDecimal(TwoDecimals(cents)) == Some(cents as real / 100.0)
  {
    hide ParseDecimal, NumberOf, Digits;
    var whole, part := Digits(cents / 100), Hundredths(cents % 100);
    HundredthsRead(cents % 100);
    DigitsRead(cents / 100);
    DecimalRead(TwoDecimals(cents), whole, part);
    assert Pow10(2) == 100;
  }

  lemma DecimalChars(cents: nat)
    ensures var s := TwoDecimals(cents);
            s != "" && (forall i :: 0 <= i < |s| ==> InNumber(s[i])) && forall i :: 0 <= i < |s| ==> InWord(s[i])
  {
  }

  lemma SideRoundTrip(arrow: string, bid: nat, ask: nat, rest: string)
    requires arrow != "" && forall i :: 0 <= i < |arrow| ==> InWord(arrow[i])
    ensures ParseSide(arrow + (Side(bid, ask) + rest)) == SideMatched(TwoDecimals(bid), TwoDecimals(ask), rest)
  {
    hide TwoDecimals, ParseSide;
    DecimalChars(bid);
    DecimalChars(ask);
    assert arrow + (Side(bid, ask) + rest) == SideText(arrow, TwoDecimals(bid), TwoDecimals(ask), rest);
    SideRead(arrow + (Side(bid, ask) + rest), TwoDecimals(bid), TwoDecimals(ask), rest);
  }

  /** What may follow the message on its line. */
  predicate LineEnd(s: string) { s == "" || s == "\n" }

  function SignedText(cents: int): string { [Sign(cents)] + "$" + TwoDecimals(Magnitude(cents)) }

  lemma NoDiff(end: string)
    requires LineEnd(end)
    ensures ParseDiff(" " + ("--" + end)) == None
  {
    LiteralMatches(" ", "--" + end);
    ManyStops("--", end, InWord);
  }

  lemma DiffRoundTrip(diff: Option<int>, end: string)
    requires LineEnd(end)
    ensures ParseDiff(" " + (OptionalSignedUsd(diff) + end))
         == if diff == None then None else Some(SignedText(diff.value))
  {
    hide TwoDecimals, ParseDiff, IsDiff, DiffText;
    if diff == None {
      NoDiff(end);
    } else {
      var cents := diff.value;
      var s, amount := " " + (OptionalSignedUsd(diff) + end), TwoDecimals(Magnitude(cents));
      DecimalChars(Magnitude(cents));
      DiffThere(Arrow(cents), Sign(cents), amount, end);
      DiffRead(s, SignedText(cents));
    }
  }

  lemma SignedRoundTrip(cents: int)
    ensures ParseSigned(SignedText(cents)) == Some(cents as real / 100.0)
  {
    var s := SignedText(cents);
    assert s[2..] == TwoDecimals(Magnitude(cents));
    DecimalRoundTrip(Magnitude(cents));
  }

  function GroupsOf(q: QuoteLine): Groups {
    Groups(TwoDecimals(q.yesBid), TwoDecimals(q.yesAsk), TwoDecimals(q.noBid), TwoDecimals(q.noAsk),
           TwoDecimals(q.price), if q.diff == None then None else Some(SignedText(q.diff.value)))
  }

  lemma MessageMatches(q: QuoteLine, end: string)
    requires LineEnd(end)
    ensures ParseMessage(Message(q) + end) == Some(GroupsOf(q))
  {
    hide TwoDecimals, Side, ParseSide, Many, Literal, ParseDiff, OptionalSignedUsd;
    var price, last := TwoDecimals(q.price), " " + (OptionalSignedUsd(q.diff) + end);
    var afterNo := "$" + (price + last);
    var afterYes := DOWN + (Side(q.noBid, q.noAsk) + afterNo);
    assert PricePart(q) + end == afterNo;
    assert Message(q) + end == UP + (Side(q.yesBid, q.yesAsk) + afterYes);
    SideRoundTrip(UP, q.yesBid, q.yesAsk, afterYes);
    SideRoundTrip(DOWN, q.noBid, q.noAsk, afterNo);
    LiteralMatches("$", price + last);
    DecimalChars(q.price);
    ManyStops(price, last, InNumber);
    DiffRoundTrip(q.diff, end);
  }

  function Cents(n: int): real { n as real / 100.0 }

  function SampleOf(tsMs: int, q: QuoteLine): Sample {
    Sample(tsMs, Cents(q.yesBid), Cents(q.yesAsk), Cents(q.noBid), Cents(q.noAsk), Cents(q.price),
           if q.diff == None then None else Some(Cents(q.diff.value)))
  }

  /** Parsing a printed quote line gives back exactly its values, an absent difference included. */
  lemma QuoteRoundTrip(tsMs: int, q: QuoteLine, end: string)
    requires LineEnd(end)
    ensures var g := ParseMessage(Message(q) + end);
            g.Some? && ToSample(tsMs, g.value) == Some(SampleOf(tsMs, q))
  {
    hide ParseMessage, Message, TwoDecimals, ParseDecimal, ParseSigned, SignedText;
    MessageMatches(q, end);
    DecimalRoundTrip(q.yesBid);
    DecimalRoundTrip(q.yesAsk);
    DecimalRoundTrip(q.noBid);
    DecimalRoundTrip(q.noAsk);
    DecimalRoundTrip(q.price);
    if q.diff.Some? { SignedRoundTrip(q.diff.value); }
  }

  /** No two different lines print alike. */
  lemma MessageInjective(q: QuoteLine, r: QuoteLine)
    requires Message(q) == Message(r)
    ensures q == r
  {
    hide ParseMessage, Message, ToSample;
    QuoteRoundTrip(0, q, "");
    QuoteRoundTrip(0, r, "");
    assert SampleOf(0, q) == SampleOf(0, r);
  }

  // --------------------------------------------- the parser against its pattern

  predicate Word(w: string) { w != "" && forall i :: 0 <= i < |w| ==> InWord(w[i]) }

  /** A run of digits and points that `rest` does not go on with. */
  predicate Number(w: string, rest: string) {
    w != "" && (forall i :: 0 <= i < |w| ==> InNumber(w[i])) && (rest != "" ==> !InNumber(rest[0]))
  }

  /** The text of one side of the book, in front of `rest`. */
  function SideText(arrow: string, bid: string, ask: string, rest: string): string {
    arrow + (" bid " + (bid + (" ask " + (ask + (" | " + rest)))))
  }

  ghost predicate IsSide(s: string, bid: string, ask: string, rest: string) {
    Word(bid) && Word(ask) && exists arrow :: Word(arrow) && s == SideText(arrow, bid, ask, rest)
  }

  /** A run, and what comes behind it. */
  lemma ManyIff(s: string, p: char -> bool, w: string, rest: string)
    ensures Many(s, p) == Matched(w, rest) <==>
            s == w + rest && w != "" && (forall i :: 0 <= i < |w| ==> p(w[i])) && (rest != "" ==> !p(rest[0]))
  {
    RunOnly(s, p);
    if s == w + rest && w != "" && (forall i :: 0 <= i < |w| ==> p(w[i])) && (rest != "" ==> !p(rest[0])) {
      ManyStops(w, rest, p);
    }
  }

  lemma LiteralIff(s: string, text: string, rest: string)
    ensures Literal(s, text) == Matched(text, rest) <==> s == text + rest
    ensures Literal(s, text) != NoMatch ==> Literal(s, text).text == text
  {
    if s == text + rest { LiteralMatches(text, rest); }
  }

  lemma SideParsed(s: string, bid: string, ask: string, rest: string)
    requires ParseSide(s) == SideMatched(bid, ask, rest)
    ensures IsSide(s, bid, ask, rest)
  {
    hide Many, Literal;
    var arrow := Many(s, InWord);
    ManyIff(s, InWord, arrow.text, arrow.rest);
    var bidMark := Literal(arrow.rest, " bid ");
    LiteralIff(arrow.rest, " bid ", bidMark.rest);
    var b := Many(bidMark.rest, InWord);
    ManyIff(bidMark.rest, InWord, b.text, b.rest);
    var askMark := Literal(b.rest, " ask ");
    LiteralIff(b.rest, " ask ", askMark.rest);
    var a := Many(askMark.rest, InWord);
    ManyIff(askMark.rest, InWord, a.text, a.rest);
    LiteralIff(a.rest, " | ", rest);
    assert s == SideText(arrow.text, bid, ask, rest);
  }

  lemma SideRead(s: string, bid: string, ask: string, rest: string)
    requires IsSide(s, bid, ask, rest)
    ensures ParseSide(s) == SideMatched(bid, ask, rest)
  {
    hide Many, Literal;
    var arrow :| Word(arrow) && s == SideText(arrow, bid, ask, rest);
    var afterAsk := " | " + rest;
    var afterBid := " ask " + (ask + afterAsk);
    var afterArrow := " bid " + (bid + afterBid);
    ManyStops(arrow, afterArrow, InWord);
    LiteralMatches(" bid ", bid + afterBid);
    ManyStops(bid, afterBid, InWord);
    LiteralMatches(" ask ", ask + afterAsk);
    ManyStops(ask, afterAsk, InWord);
    LiteralMatches(" | ", rest);
  }

  function DiffText(arrow: string, sign: char, amount: string, rest: string): string {
    " " + (arrow + (" " + ([sign] + ("$" + (amount + rest)))))
  }

  /** The optional column is there and reads `text`. */
  ghost predicate IsDiff(s: string, text: string) {
    exists arrow, sign, amount, rest ::
      && Word(arrow) && (sign == '+' || sign == '-') && Number(amount, rest)
      && s == DiffText(arrow, sign, amount, rest) && text == [sign] + "$" + amount
  }

  lemma DiffThere(arrow: string, sign: char, amount: string, rest: string)
    requires Word(arrow) && (sign == '+' || sign == '-') && Number(amount, rest)
    ensures IsDiff(" " + ((arrow + " " + [sign] + "$" + amount) + rest), [sign] + "$" + amount)
  {
    assert " " + ((arrow + " " + [sign] + "$" + amount) + rest) == DiffText(arrow, sign, amount, rest);
  }

  lemma DiffParsed(s: string, text: string)
    requires ParseDiff(s) == Some(text)
    ensures IsDiff(s, text)
  {
    hide Many, Literal;
    var space := Literal(s, " ");
    LiteralIff(s, " ", space.rest);
    var arrow := Many(space.rest, InWord);
    ManyIff(space.rest, InWord, arrow.text, arrow.rest);
    var gap := Literal(arrow.rest, " ");
    LiteralIff(arrow.rest, " ", gap.rest);
    var dollar := Literal(gap.rest[1..], "$");
    LiteralIff(gap.rest[1..], "$", dollar.rest);
    var amount := Many(dollar.rest, InNumber);
    ManyIff(dollar.rest, InNumber, amount.text, amount.rest);
    assert gap.rest == [gap.rest[0]] + gap.rest[1..];
    assert s == DiffText(arrow.text, gap.rest[0], amount.text, amount.rest);
  }

  lemma DiffRead(s: string, text: string)
    requires IsDiff(s, text)
    ensures ParseDiff(s) == Some(text)
  {
    hide Many, Literal;
    var arrow, sign, amount, rest :|
      && Word(arrow) && (sign == '+' || sign == '-') && Number(amount, rest)
      && s == DiffText(arrow, sign, amount, rest) && text == [sign] + "$" + amount;
    var afterSign := "$" + (amount + rest);
    var afterArrow := " " + ([sign] + afterSign);
    LiteralMatches(" ", arrow + afterArrow);
    ManyStops(arrow, afterArrow, InWord);
    LiteralMatches(" ", [sign] + afterSign);
    assert ([sign] + afterSign)[1..] == afterSign;
    LiteralMatches("$", amount + rest);
    ManyStops(amount, rest, InNumber);
  }

  /** The pattern: two sides, a dollar amount, and the optional column, which has no text when it is not there. */
  ghost predicate IsMessage(s: string, g: Groups) {
    exists no, amount, rest ::
      && IsSide(s, g.yesBid, g.yesAsk, no) && IsSide(no, g.noBid, g.noAsk, amount)
      && amount == "$" + (g.price + rest) && Number(g.price, rest)
      && (if g.diff == None then NoDiffIn(rest) else IsDiff(rest, g.diff.value))
  }

  ghost predicate NoDiffIn(s: string) { forall text :: !IsDiff(s, text) }

  lemma DiffIff(s: string, diff: Option<string>)
    ensures ParseDiff(s) == diff <==> if diff == None then NoDiffIn(s) else IsDiff(s, diff.value)
  {
    hide ParseDiff, IsDiff;
    if ParseDiff(s).Some? { DiffParsed(s, ParseDiff(s).value); }
    forall text | IsDiff(s, text)
      ensures ParseDiff(s) == Some(text)
    {
      DiffRead(s, text);
    }
  }

  /** The parser reads these groups from a text if and only if the text matches the pattern with them. */
  lemma PatternIff(s: string, g: Groups)
    ensures ParseMessage(s) == Some(g) <==> IsMessage(s, g)
  {
    hide ParseSide, ParseDiff, IsSide, IsDiff, NoDiffIn, Many, Literal;
    if ParseMessage(s) == Some(g) {
      var yes := ParseSide(s);
      SideParsed(s, g.yesBid, g.yesAsk, yes.rest);
      var no := ParseSide(yes.rest);
      SideParsed(yes.rest, g.noBid, g.noAsk, no.rest);
      var dollar := Literal(no.rest, "$");
      LiteralIff(no.rest, "$", dollar.rest);
      var price := Many(dollar.rest, InNumber);
      ManyIff(dollar.rest, InNumber, price.text, price.rest);
      DiffIff(price.rest, g.diff);
    }
    if IsMessage(s, g) {
      var no, amount, rest :|
        && IsSide(s, g.yesBid, g.yesAsk, no) && IsSide(no, g.noBid, g.noAsk, amount)
        && amount == "$" + (g.price + rest) && Number(g.price, rest)
        && (if g.diff == None then NoDiffIn(rest) else IsDiff(rest, g.diff.value));
      SideRead(s, g.yesBid, g.yesAsk, no);
      SideRead(no, g.noBid, g.noAsk, amount);
      LiteralMatches("$", g.price + rest);
      ManyStops(g.price, rest, InNumber);
      DiffIff(rest, g.diff);
    }
  }

  /** A plain decimal number: digits, and digits behind a point, of which one part may be missing. */
  predicate IsDecimal(s: string, whole: string, part: string) {
    AllDigits(whole) && AllDigits(part) && whole + part != "" && (s == whole + "." + part || (s == whole && part == ""))
  }

  function ValueOf(whole: string, part: string): real
    requires AllDigits(whole) && AllDigits(part)
  {
    NumberOf(whole) as real + NumberOf(part) as real / Pow10(|part|) as real
  }

  /** Exactly these are converted, to their value. */
  lemma DecimalIff(s: string, value: real)
    ensures ParseDecimal(s) == Some(value)
       <==> exists whole, part :: IsDecimal(s, whole, part) && ValueOf(whole, part) == value
  {
    hide ParseDecimal, ValueOf;
    if ParseDecimal(s) == Some(value) {
      var whole, part := DecimalParsed(s);
    }
    forall whole, part | IsDecimal(s, whole, part)
      ensures ParseDecimal(s) == Some(ValueOf(whole, part))
    {
      DecimalRead(s, whole, part);
    }
  }

  lemma WholeValue(whole: string)
    requires AllDigits(whole)
    ensures ValueOf(whole, "") == NumberOf(whole) as real
  {
    assert Pow10(0) == 1 && NumberOf("") == 0;
  }

  lemma DecimalParsed(s: string) returns (whole: string, part: string)
    requires ParseDecimal(s).Some?
    ensures IsDecimal(s, whole, part) && ParseDecimal(s) == Some(ValueOf(whole, part))
  {
    hide NumberOf, Pow10;
    var n := Run(s, IsDigit);
    RunOnly(s, IsDigit);
    if n == |s| {
      whole, part := s, "";
      WholeValue(s);
    } else {
      whole, part := s[..n], s[n + 1..];
      assert s == whole + "." + part;
    }
  }

  lemma DecimalRead(s: string, whole: string, part: string)
    requires IsDecimal(s, whole, part)
    ensures ParseDecimal(s) == Some(ValueOf(whole, part))
  {
    hide NumberOf, Pow10;
    if s == whole + "." + part {
      assert s == whole + ("." + part);
      RunStops(whole, "." + part, IsDigit);
      assert s[..|whole|] == whole && s[|whole| + 1..] == part;
    } else {
      assert s == whole + "";
      RunStops(whole, "", IsDigit);
      WholeValue(whole);
    }
  }

  /** The optional column is its amount with its sign, whatever the amount. */
  lemma SignedReads(sign: char, amount: string)
    requires sign == '+' || sign == '-'
    ensures var value, signed := ParseDecimal(amount), ParseSigned([sign] + "$" + amount);
            if value == None then signed == None
            else signed == Some(if sign == '+' then value.value else 0.0 - value.value)
  {
    hide ParseDecimal;
    assert ([sign] + "$" + amount)[2..] == amount;
  }

  // -------------------------------------------------------------- downsampling

  /** A log line: one of another kind, or a state line with its timestamp and message. */
  datatype LogLine = Other | StateLine(tsMs: int, message: string)

  datatype Parsed = Raised | Samples(samples: seq<Sample>)

  /** The samples so far and the timestamp of the last one, 0 before the first. */
  datatype Progress = Progress(samples: seq<Sample>, last: int)

  /** One line: `None` when a number cannot be converted. */
  function TakeLine(p: Progress, line: LogLine, gap: int): Option<Progress> {
    if line == Other then Some(p) else
    var g := ParseMessage(line.message);
    if g == None || line.tsMs - p.last < gap then Some(p) else
    var sample := ToSample(line.tsMs, g.value);
    if sample == None then None else Some(Progress(p.samples + [sample.value], line.tsMs))
  }

  function TakeLines(lines: seq<LogLine>, gap: int): Option<Progress> {
    if lines == [] then Some(Progress([], 0)) else
    var before := TakeLines(lines[..|lines| - 1], gap);
    if before == None then None else TakeLine(before.value, lines[|lines| - 1], gap)
  }

  lemma {:induction false} RaiseIsFinal(lines: seq<LogLine>, n: nat, gap: int)
    requires n <= |lines| && TakeLines(lines[..n], gap) == None
    ensures TakeLines(lines, gap) == None
  {
    hide TakeLine;
    if n < |lines| {
      assert lines[..|lines| - 1][..n] == lines[..n];
      RaiseIsFinal(lines[..|lines| - 1], n, gap);
    } else {
      assert lines[..n] == lines;
    }
  }

  /** A number of the groups is no plain decimal. */
  predicate Unreadable(g: Groups) {
    || ParseDecimal(g.yesBid) == None || ParseDecimal(g.yesAsk) == None || ParseDecimal(g.noBid) == None
    || ParseDecimal(g.noAsk) == None || ParseDecimal(g.price) == None
    || (g.diff.Some? && ParseSigned(g.diff.value) == None)
  }

  /** Line `i` is sampled, by the lines before it, and cannot be read. */
  ghost predicate StopsAt(lines: seq<LogLine>, gap: int, i: nat) {
    && i < |lines| && lines[i].StateLine? && TakeLines(lines[..i], gap).Some?
    && lines[i].tsMs - TakeLines(lines[..i], gap).value.last >= gap
    && exists g :: IsMessage(lines[i].message, g) && Unreadable(g)
  }

  /** The loop raises if and only if some line that matches the pattern and is due has an unreadable number. */
  lemma {:induction false} RaisedIff(lines: seq<LogLine>, gap: int)
    ensures TakeLines(lines, gap) == None <==> exists i: nat :: StopsAt(lines, gap, i)
  {
    hide TakeLine, StopsAt;
    forall i: nat | StopsAt(lines, gap, i)
      ensures TakeLines(lines, gap) == None
    {
      StopRaises(lines, gap, i);
      RaiseIsFinal(lines, i + 1, gap);
    }
    if lines != [] && TakeLines(lines, gap) == None {
      var n := |lines| - 1;
      if TakeLines(lines[..n], gap) == None {
        RaisedIff(lines[..n], gap);
        var i: nat :| StopsAt(lines[..n], gap, i);
        StopStays(lines, gap, n, i);
      } else {
        RaiseStops(lines, gap);
      }
    }
  }

  lemma StopRaises(lines: seq<LogLine>, gap: int, i: nat)
    requires StopsAt(lines, gap, i)
    ensures i < |lines| && TakeLines(lines[..i + 1], gap) == None
  {
    hide ParseMessage, IsMessage, ParseDecimal, ParseSigned;
    var g :| IsMessage(lines[i].message, g) && Unreadable(g);
    PatternIff(lines[i].message, g);
    assert lines[..i + 1][..i] == lines[..i];
  }

  lemma StopStays(lines: seq<LogLine>, gap: int, n: nat, i: nat)
    requires n <= |lines| && StopsAt(lines[..n], gap, i)
    ensures StopsAt(lines, gap, i)
  {
    hide TakeLines, IsMessage, Unreadable;
    assert lines[..n][..i] == lines[..i];
  }

  lemma RaiseStops(lines: seq<LogLine>, gap: int)
    requires lines != [] && TakeLines(lines[..|lines| - 1], gap).Some? && TakeLines(lines, gap) == None
    ensures StopsAt(lines, gap, |lines| - 1)
  {
    hide ParseMessage, IsMessage, ParseDecimal, ParseSigned;
    var line := lines[|lines| - 1];
    PatternIff(line.message, ParseMessage(line.message).value);
  }

  method ParseQuoteLog(lines: seq<LogLine>, gap: int) returns (r: Parsed)
    ensures r == if TakeLines(lines, gap) == None then Raised else Samples(TakeLines(lines, gap).value.samples)
  {
    hide ParseMessage, ToSample;
    var samples: seq<Sample>, last := [], 0;
    for i := 0 to |lines|
      invariant TakeLines(lines[..i], gap) == Some(Progress(samples, last))
    {
      assert lines[..i + 1][..i] == lines[..i];
      var line := lines[i];
      if line == Other { continue; }
      var g := ParseMessage(line.message);
      if g == None { continue; }
      if line.tsMs - last < gap { continue; }
      last := line.tsMs;
      var sample := ToSample(line.tsMs, g.value);
      if sample == None {
        RaiseIsFinal(lines, i + 1, gap);
        return Raised;
      }
      samples := samples + [sample.value];
    }
    assert lines[..|lines|] == lines;
    return Samples(samples);
  }

  /** The state lines a runtime prints for these quotes. */
  function PrintLog(stamps: seq<int>, quotes: seq<QuoteLine>): seq<LogLine>
    requires |stamps| == |quotes|
  {
    seq(|quotes|, i requires 0 <= i < |quotes| => StateLine(stamps[i], Message(quotes[i]) + "\n"))
  }

  /** Which quotes survive downsampling: the first at least `gap` after the last survivor, and so on. */
  function Survivors(stamps: seq<int>, gap: int): (r: seq<nat>)
    ensures forall j :: 0 <= j < |r| ==> r[j] < |stamps|
  {
    if stamps == [] then [] else
    var n := |stamps| - 1;
    var before := Survivors(stamps[..n], gap);
    if stamps[n] - LastOf(stamps, before) < gap then before else before + [n]
  }

  function SamplesAt(stamps: seq<int>, quotes: seq<QuoteLine>, kept: seq<nat>): seq<Sample>
    requires |stamps| == |quotes| && forall j :: 0 <= j < |kept| ==> kept[j] < |stamps|
  {
    seq(|kept|, j requires 0 <= j < |kept| => SampleOf(stamps[kept[j]], quotes[kept[j]]))
  }

  function LastOf(stamps: seq<int>, kept: seq<nat>): int
    requires forall j :: 0 <= j < |kept| ==> kept[j] < |stamps|
  {
    if kept == [] then 0 else stamps[kept[|kept| - 1]]
  }

  function Kept(stamps: seq<int>, quotes: seq<QuoteLine>, kept: seq<nat>): Progress
    requires |stamps| == |quotes| && forall j :: 0 <= j < |kept| ==> kept[j] < |stamps|
  {
    Progress(SamplesAt(stamps, quotes, kept), LastOf(stamps, kept))
  }

  /** Parsing a printed log gives the exact values of the surviving quotes, in order. */
  lemma {:induction false} LogRoundTrip(stamps: seq<int>, quotes: seq<QuoteLine>, gap: int)
    requires |stamps| == |quotes|
    ensures TakeLines(PrintLog(stamps, quotes), gap) == Some(Kept(stamps, quotes, Survivors(stamps, gap)))
  {
    hide Kept, TakeLine, Survivors, Message;
    if quotes == [] {
      KeptNothing(gap);
    } else {
      var n := |quotes| - 1;
      LogRoundTrip(stamps[..n], quotes[..n], gap);
      assert PrintLog(stamps, quotes)[..n] == PrintLog(stamps[..n], quotes[..n]);
      LineTaken(stamps, quotes, gap);
    }
  }

  lemma KeptNothing(gap: int)
    ensures Kept([], [], Survivors([], gap)) == Progress([], 0)
  {
  }

  /** The last line of a printed log is sampled exactly when its quote survives. */
  lemma LineTaken(stamps: seq<int>, quotes: seq<QuoteLine>, gap: int)
    requires |stamps| == |quotes| > 0
    ensures var n := |quotes| - 1;
            TakeLine(Kept(stamps[..n], quotes[..n], Survivors(stamps[..n], gap)),
                     StateLine(stamps[n], Message(quotes[n]) + "\n"), gap)
            == Some(Kept(stamps, quotes, Survivors(stamps, gap)))
  {
    hide ParseMessage, Message, ToSample, SampleOf;
    var n := |quotes| - 1;
    var before := Survivors(stamps[..n], gap);
    QuoteRoundTrip(stamps[n], quotes[n], "\n");
    assert SamplesAt(stamps[..n], quotes[..n], before) == SamplesAt(stamps, quotes, before);
    assert SamplesAt(stamps, quotes, before + [n])
        == SamplesAt(stamps, quotes, before) + [SampleOf(stamps[n], quotes[n])];
  }

  /** Survivors are in order and at least `gap` apart. */
  lemma {:induction false} SurvivorsSpaced(stamps: seq<int>, gap: int)
    ensures var kept := Survivors(stamps, gap);
            && (kept != [] ==> stamps[kept[0]] >= gap)
            && forall j :: 0 < j < |kept| ==> kept[j - 1] < kept[j] && stamps[kept[j]] - stamps[kept[j - 1]] >= gap
  {
    if stamps != [] {
      SurvivorsSpaced(stamps[..|stamps| - 1], gap);
    }
  }

  /** `i` comes less than `gap` after the survivor `k`. */
  predicate CloseTo(stamps: seq<int>, gap: int, k: nat, i: nat) {
    k < i < |stamps| && stamps[i] - stamps[k] < gap
  }

  /** Nothing is left out without reason: a quote that does not survive is too close to one that did, or to zero. */
  lemma {:induction false} LeftOutIsClose(stamps: seq<int>, gap: int, i: nat)
    requires i < |stamps| && i !in Survivors(stamps, gap)
    ensures stamps[i] < gap || exists k :: k in Survivors(stamps, gap) && CloseTo(stamps, gap, k, i)
  {
    var n := |stamps| - 1;
    var before, kept := Survivors(stamps[..n], gap), Survivors(stamps, gap);
    assert forall k :: k in before ==> k in kept;
    if i < n {
      LeftOutIsClose(stamps[..n], gap, i);
      if k :| k in before && CloseTo(stamps[..n], gap, k, i) {
        assert CloseTo(stamps, gap, k, i);
      }
    } else if before != [] {
      assert CloseTo(stamps, gap, before[|before| - 1], i);
    }
  }
}
