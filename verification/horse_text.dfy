/** The horse half of the paste-text entry form
    (`client/src/components/RaceForm.tsx`, `extractHorseData`): the pasted
    card is read as blocks of four trimmed lines — a `frame horse` header,
    a mark line, the name, and a tab-separated info line. */
module HorseText {
  import opened Base
  import opened Text
  import opened RaceInfoText

  /** A parsed entrant; `None` stands for a `NaN` that `parseInt` or
      `parseFloat` produced. */
  datatype ParsedHorse = ParsedHorse(
    frameNumber: nat,
    horseNumber: nat,
    name: string,
    sex: string,
    age: Option<int>,
    weight: Option<real>,
    jockey: string,
    odds: Option<real>,
    popularity: Option<int>)

  function SpaceRun(s: string): (n: nat)
    ensures n <= |s| && forall j :: 0 <= j < n ==> IsSpace(s[j])
    ensures n < |s| ==> !IsSpace(s[n])
    decreases |s|
  {
    if s != [] && IsSpace(s[0]) then 1 + SpaceRun(s[1..]) else 0
  }

  /** `/^(\d+)\s+(\d+)$/`: both runs are greedy and the whitespace must sit
      between them, so the numbers are the line's leading and trailing digits. */
  function Header(line: string): Option<(nat, nat)> {
    var n := DigitRun(line);
    var k := SpaceRun(line[n..]);
    var tail := line[n + k..];
    if n >= 1 && k >= 1 && tail != [] && AllDigits(tail)
    then Some((DigitsValue(line[..n]), DigitsValue(tail)))
    else None
  }

  /** `/^(--|◎|◯|▲|△|☆|✓|消|)$/`: the separator or prediction mark, or nothing. */
  const Marks: seq<string> := ["--", "◎", "◯", "▲", "△", "☆", "✓", "消", ""]

  const MarkSymbols: set<char> := {'◎', '◯', '▲', '△', '☆', '✓', '消'}

  /** The mark test, read by shape: empty, the separator, or one symbol. */
  predicate IsMark(s: string) {
    s == [] || s == "--" || (|s| == 1 && s[0] in MarkSymbols)
  }

  /** The shape test accepts exactly the listed alternatives. */
  lemma IsMarkExactly(s: string)
    ensures IsMark(s) <==> s in Marks
  {
    if |s| == 1 && s[0] in MarkSymbols {
      assert s == [s[0]];
    }
    if s in Marks {
      var i :| 0 <= i < |Marks| && Marks[i] == s;
      assert i == 0 || i == 1 || i == 2 || i == 3 || i == 4 || i == 5 || i == 6 || i == 7 || i == 8;
    }
  }

  /** `/^\d+\(\S*\)$/`: a body weight such as `454(0)`. */
  predicate BodyWeight(s: string) {
    var n := DigitRun(s);
    && n >= 1 && |s| >= n + 2 && s[n] == '(' && s[|s| - 1] == ')'
    && forall j :: n + 1 <= j < |s| - 1 ==> !IsSpace(s[j])
  }

  /** What an info line with at least six fields says about the horse. */
  datatype Info = Info(sex: string, age: Option<int>, weight: Option<real>, jockey: string, odds: Option<real>, popularity: Option<int>)

  /** A trimmed line with what the block test asks of it: the numbers of a
      header, whether it is a mark, and the reading of an info line. */
  datatype Line = Line(text: string, header: Option<(nat, nat)>, mark: bool, info: Option<Info>)

  function Classify(text: string): (l: Line)
    ensures l.text == text && l.mark == IsMark(text)
    ensures l.info.Some? <==> |SplitTabs(text)| >= 6
  {
    var parts := SplitTabs(text);
    Line(text, Header(text), IsMark(text), if |parts| >= 6 then Some(Read(parts)) else None)
  }

  function Classified(ls: seq<string>): (xs: seq<Line>)
    ensures |xs| == |ls| && forall i :: 0 <= i < |ls| ==> xs[i].text == ls[i]
    decreases |ls|
  {
    if ls == [] then [] else [Classify(ls[0])] + Classified(ls[1..])
  }

  lemma {:induction false} ClassifiedAt(ls: seq<string>, i: nat)
    requires i < |ls|
    ensures Classified(ls)[i] == Classify(ls[i])
    decreases i
  {
    if i > 0 {
      ClassifiedAt(ls[1..], i - 1);
    }
  }

  /** The fields of an info line: odds and popularity are fields 4 and 5, or
      5 and 6 when a body weight occupies field 4; sex is the first
      character of field 0 and the age the rest of it. */
  function Read(parts: seq<string>): (r: Info)
    requires |parts| >= 6
    ensures r.jockey == parts[2]
  {
    var oddsAt := OddsAt(parts);
    Info(SexOf(parts[0]), AgeOf(parts[0]), ParseFloat(parts[1]), parts[2], ParseFloat(parts[oddsAt]), ParseInt(parts[oddsAt + 1]))
  }

  /** Where the odds field sits: after the body weight when there is one. */
  function OddsAt(parts: seq<string>): (i: nat)
    requires |parts| >= 6
    ensures i + 1 < |parts| && (i == 4 || i == 5)
  {
    if |parts| >= 7 && BodyWeight(parts[4]) then 5 else 4
  }

  /** `sexAge.slice(0, 1)` */
  function SexOf(sexAge: string): string {
    if sexAge == [] then [] else sexAge[..1]
  }

  /** `parseInt(sexAge.slice(1))` */
  function AgeOf(sexAge: string): Option<int> {
    if sexAge == [] then ParseInt([]) else ParseInt(sexAge[1..])
  }

  /** The horse a header at the start of `xs` introduces, when the next line
      is a mark, the name is present and the info line has at least six
      fields. */
  function Block(xs: seq<Line>): (r: Option<ParsedHorse>)
    ensures r.Some? ==> |xs| >= 4 && xs[1].mark && r.value.name == xs[2].text != ""
  {
    if |xs| >= 4 && xs[0].header.Some? && xs[1].mark && xs[2].text != "" && xs[3].text != "" && xs[3].info.Some?
    then
      var n := xs[0].header.value;
      var i := xs[3].info.value;
      Some(ParsedHorse(n.0, n.1, xs[2].text, i.sex, i.age, i.weight, i.jockey, i.odds, i.popularity))
    else None
  }

  function Shift(ps: seq<nat>, d: nat): (r: seq<nat>)
    ensures |r| == |ps| && forall k :: 0 <= k < |ps| ==> r[k] == ps[k] + d
  {
    seq(|ps|, k requires 0 <= k < |ps| => ps[k] + d)
  }

  /** For each line, whether a block starting there would be accepted. */
  function Accepted(xs: seq<Line>): (flags: seq<bool>)
    ensures |flags| == |xs|
    ensures forall i :: 0 <= i < |xs| ==> flags[i] == Block(xs[i..]).Some?
  {
    seq(|xs|, i requires 0 <= i < |xs| => Block(xs[i..]).Some?)
  }

  /** The scanning loop over the acceptance flags: the header lines of the
      emitted horses. An emitted horse moves the scan on four lines
      (`i += 3` and the loop's `i++`), anything else one line; an accepted
      block always has its four lines, so the guard on the length only
      restates that. */
  function Scan(flags: seq<bool>): (ps: seq<nat>)
    ensures 4 * |ps| <= |flags|
    ensures forall k :: 0 <= k < |ps| ==> ps[k] < |flags| && flags[ps[k]]
    ensures forall k :: 0 <= k < |ps| - 1 ==> ps[k] + 4 <= ps[k + 1]
    ensures flags != [] && flags[0] && |flags| >= 4 ==> |ps| >= 1 && ps[0] == 0
    decreases |flags|
  {
    if flags == [] then []
    else if flags[0] && |flags| >= 4 then
      var rest := Scan(flags[4..]);
      [0] + Shift(rest, 4)
    else
      var rest := Scan(flags[1..]);
      var r := Shift(rest, 1);
      assert forall k :: 0 <= k < |rest| ==> flags[r[k]] == flags[1..][rest[k]];
      r
  }

  /** The horses of the accepted blocks the scan stops at, in line order. */
  function Horses(xs: seq<Line>): (hs: seq<ParsedHorse>)
    ensures 4 * |hs| <= |xs|
  {
    var flags := Accepted(xs);
    var ps := Scan(flags);
    seq(|ps|, k requires 0 <= k < |ps| => Block(xs[ps[k]..]).value)
  }

  /** Every horse read is named by a non-empty line. */
  lemma HorsesNamed(xs: seq<Line>)
    ensures forall k :: 0 <= k < |Horses(xs)| ==> Horses(xs)[k].name != "" && exists i :: 0 <= i < |xs| && xs[i].text == Horses(xs)[k].name
  {
    var flags := Accepted(xs);
    var ps := Scan(flags);
    var hs := Horses(xs);
    forall k | 0 <= k < |hs|
      ensures hs[k].name != "" && exists i :: 0 <= i < |xs| && xs[i].text == hs[k].name
    {
      var p := ps[k];
      assert flags[p];
      var b := Block(xs[p..]);
      assert hs[k] == b.value;
      assert xs[p..][2] == xs[p + 2];
      assert xs[p + 2].text == hs[k].name;
    }
  }

  /** `extractHorseData`: the horses read from the trimmed lines of the
      text, at most one per four lines. */
  function ExtractHorses(text: string): (hs: seq<ParsedHorse>)
    ensures 4 * |hs| <= |TrimmedLines(text)|
  {
    Horses(Classified(TrimmedLines(text)))
  }

  /** Every horse extracted is named by a non-empty line of the text. */
  lemma ExtractedNamesAreLines(text: string)
    ensures forall k :: 0 <= k < |ExtractHorses(text)| ==>
      ExtractHorses(text)[k].name != "" && ExtractHorses(text)[k].name in TrimmedLines(text)
  {
    NamesAreLines(TrimmedLines(text));
  }

  lemma NamesAreLines(ls: seq<string>)
    ensures forall k :: 0 <= k < |Horses(Classified(ls))| ==>
      Horses(Classified(ls))[k].name != "" && Horses(Classified(ls))[k].name in ls
  {
    var xs := Classified(ls);
    var hs := Horses(xs);
    HorsesNamed(xs);
    forall k | 0 <= k < |hs|
      ensures hs[k].name in ls
    {
      var i :| 0 <= i < |xs| && xs[i].text == hs[k].name;
      TextIsLine(ls, i);
    }
  }

  lemma TextIsLine(ls: seq<string>, i: nat)
    requires i < |Classified(ls)|
    ensures Classified(ls)[i].text in ls
  {
    assert Classified(ls)[i].text == ls[i];
  }

  /** Scanning `4n` flags that hold at every fourth position stops at
      exactly those positions. */
  lemma {:induction false} ScanEveryFourth(flags: seq<bool>, n: nat)
    requires |flags| == 4 * n
    requires forall k :: 0 <= k < n ==> flags[4 * k]
    ensures |Scan(flags)| == n
    ensures forall k :: 0 <= k < n ==> Scan(flags)[k] == 4 * k
    decreases n
  {
    if n > 0 {
      assert flags[4 * 0];
      var rest := flags[4..];
      assert forall k :: 0 <= k < n - 1 ==> rest[4 * k] == flags[4 * (k + 1)];
      ScanEveryFourth(rest, n - 1);
      var r := Scan(rest);
      assert Scan(flags) == [0] + Shift(r, 4);
    }
  }

  /** Lines holding `n` accepted blocks back to back read as those blocks. */
  lemma {:induction false} HorsesBackToBack(xs: seq<Line>, n: nat)
    requires |xs| == 4 * n
    requires forall k :: 0 <= k < n ==> Block(xs[4 * k..]).Some?
    ensures |Horses(xs)| == n
    ensures forall k :: 0 <= k < n ==> Horses(xs)[k] == Block(xs[4 * k..]).value
  {
    var flags := Accepted(xs);
    forall k | 0 <= k < n
      ensures flags[4 * k]
    {
      assert flags[4 * k] == Block(xs[4 * k..]).Some?;
    }
    ScanEveryFourth(flags, n);
  }

  // ---------------------------------------------------------------- round trip

  /** A horse as a race card lists it; the weight and odds are whole numbers. */
  datatype Entry = Entry(
    frame: nat,
    number: nat,
    mark: string,
    name: string,
    sex: char,
    age: nat,
    weight: nat,
    jockey: string,
    trainer: string,
    bodyWeight: Option<nat>,
    odds: nat,
    popularity: nat)

  predicate Field(s: string) { s != [] && Free(s, '\t') && Free(s, '\n') }

  /** An entry a card can show: a known mark, a one-line name without
      surrounding blanks, a visible sex mark, and one-line, tab-free jockey
      and trainer names. */
  predicate Printable(e: Entry) {
    && IsMark(e.mark)
    && e.name != [] && Free(e.name, '\n') && !IsSpace(e.name[0]) && !IsSpace(e.name[|e.name| - 1])
    && !IsSpace(e.sex)
    && Field(e.jockey) && Field(e.trainer)
  }

  function InfoFields(e: Entry): seq<string> {
    [[e.sex] + NatToString(e.age), NatToString(e.weight), e.jockey, e.trainer]
    + (match e.bodyWeight case None => [] case Some(b) => [NatToString(b) + "(0)"])
    + [NatToString(e.odds), NatToString(e.popularity)]
  }

  function HeaderLine(e: Entry): string { NatToString(e.frame) + " " + NatToString(e.number) }

  function InfoLine(e: Entry): string { Join(InfoFields(e), '\t') }

  /** The four lines of an entry. */
  function EntryLines(e: Entry): seq<string> {
    [HeaderLine(e), e.mark, e.name, InfoLine(e)]
  }

  function CardLines(es: seq<Entry>): (ls: seq<string>)
    ensures |ls| == 4 * |es|
    decreases |es|
  {
    if es == [] then [] else EntryLines(es[0]) + CardLines(es[1..])
  }

  /** A card's text: the entries' lines joined by newlines. */
  function Card(es: seq<Entry>): string {
    if es == [] then "" else Join(CardLines(es), '\n')
  }

  /** What the info line of a printable entry should read back as. */
  function InfoOf(e: Entry): Info {
    Info([e.sex], Some(e.age), Some(e.weight as real), e.jockey, Some(e.odds as real), Some(e.popularity))
  }

  /** What a printable entry should read back as. */
  function Expected(e: Entry): ParsedHorse {
    ParsedHorse(e.frame, e.number, e.name, [e.sex], Some(e.age), Some(e.weight as real), e.jockey, Some(e.odds as real), Some(e.popularity))
  }

  /** Reading a printed card gives back every entry, in order. */
  lemma CardRoundTrip(es: seq<Entry>)
    requires forall k :: 0 <= k < |es| ==> Printable(es[k])
    ensures |ExtractHorses(Card(es))| == |es|
    ensures forall k :: 0 <= k < |es| ==> ExtractHorses(Card(es))[k] == Expected(es[k])
  {
    if es == [] {
      assert TrimmedLines("") == [""];
    } else {
      var xs := Classified(CardLines(es));
      assert ExtractHorses(Card(es)) == Horses(xs) by {
        CardText(es);
      }
      assert |Horses(xs)| == |es| && forall k :: 0 <= k < |es| ==> Horses(xs)[k] == Expected(es[k]) by {
        CardBlocks(es);
        HorsesBackToBack(xs, |es|);
      }
    }
  }

  /** The trimmed lines of a card are its lines. */
  lemma CardText(es: seq<Entry>)
    requires es != [] && forall k :: 0 <= k < |es| ==> Printable(es[k])
    ensures TrimmedLines(Card(es)) == CardLines(es)
  {
    CardLinesShape(es);
    LinesOfJoin(CardLines(es));
  }

  /** Tidy lines joined by newlines split and trim back into themselves. */
  lemma LinesOfJoin(ls: seq<string>)
    requires |ls| >= 1 && forall i :: 0 <= i < |ls| ==> Tidy(ls[i])
    ensures TrimmedLines(Join(ls, '\n')) == ls
  {
    SplitAfterJoin(ls, '\n');
    TrimmedTidy(Join(ls, '\n'), ls);
  }

  /** A text whose lines are already tidy is unchanged by trimming them. */
  lemma TrimmedTidy(text: string, ls: seq<string>)
    requires Split(text, '\n') == ls && forall i :: 0 <= i < |ls| ==> Tidy(ls[i])
    ensures TrimmedLines(text) == ls
  {
    var t := TrimmedLines(text);
    forall i | 0 <= i < |ls|
      ensures t[i] == ls[i]
    {
      TrimIdentity(ls[i]);
    }
  }

  /** On a card, entry `k`'s header starts a block that reads back as the entry. */
  lemma CardBlocks(es: seq<Entry>)
    requires forall k :: 0 <= k < |es| ==> Printable(es[k])
    ensures forall k :: 0 <= k < |es| ==> Block(Classified(CardLines(es))[4 * k..]) == Some(Expected(es[k]))
  {
    forall k | 0 <= k < |es|
      ensures Block(Classified(CardLines(es))[4 * k..]) == Some(Expected(es[k]))
    {
      CardBlock(es, k);
    }
  }

  lemma CardBlock(es: seq<Entry>, k: nat)
    requires k < |es| && Printable(es[k])
    ensures Block(Classified(CardLines(es))[4 * k..]) == Some(Expected(es[k]))
  {
    CardLinesAt(es, k);
    BlockAt(CardLines(es), 4 * k, es[k]);
  }

  /** Wherever an entry's four lines stand, the block read there is the entry. */
  lemma BlockAt(ls: seq<string>, j: nat, e: Entry)
    requires j + 4 <= |ls| && ls[j..][..4] == EntryLines(e) && Printable(e)
    ensures Block(Classified(ls)[j..]) == Some(Expected(e))
  {
    assert ls[j] == ls[j..][..4][0] && ls[j + 1] == ls[j..][..4][1];
    assert ls[j + 2] == ls[j..][..4][2] && ls[j + 3] == ls[j..][..4][3];
    ClassifiedHeader(ls, j, e);
    ClassifiedMark(ls, j + 1, e);
    ClassifiedInfo(ls, j + 3, e);
    var xs := Classified(ls)[j..];
    assert xs[0] == Classified(ls)[j] && xs[1] == Classified(ls)[j + 1];
    assert xs[2] == Classified(ls)[j + 2] && xs[3] == Classified(ls)[j + 3];
  }

  lemma ClassifiedHeader(ls: seq<string>, j: nat, e: Entry)
    requires j < |ls| && ls[j] == HeaderLine(e)
    ensures Classified(ls)[j].header == Some((e.frame, e.number))
  {
    ClassifiedAt(ls, j);
    var a := NatToString(e.frame);
    var b := NatToString(e.number);
    HeaderReads(a, b);
    NatToStringValue(e.frame);
    NatToStringValue(e.number);
  }

  lemma ClassifiedMark(ls: seq<string>, j: nat, e: Entry)
    requires j < |ls| && ls[j] == e.mark && Printable(e)
    ensures Classified(ls)[j].mark
  {
    ClassifiedAt(ls, j);
  }

  lemma ClassifiedInfo(ls: seq<string>, j: nat, e: Entry)
    requires j < |ls| && ls[j] == InfoLine(e) && Printable(e)
    ensures Classified(ls)[j].text != "" && Classified(ls)[j].info == Some(InfoOf(e))
  {
    ClassifiedAt(ls, j);
    InfoClassified(e);
  }

  /** Lines `4k` to `4k + 3` of a card are entry `k`'s. */
  lemma CardLinesAt(es: seq<Entry>, k: nat)
    requires k < |es|
    ensures CardLines(es)[4 * k..][..4] == EntryLines(es[k])
  {
    CardSuffix(es, k);
    CardLinesHead(es[k..]);
    assert es[k..][0] == es[k];
  }

  lemma CardLinesHead(es: seq<Entry>)
    requires es != []
    ensures CardLines(es)[..4] == EntryLines(es[0])
  {
    assert CardLines(es) == EntryLines(es[0]) + CardLines(es[1..]);
  }

  /** A one-line text with no whitespace at either end. */
  predicate Tidy(line: string) {
    Free(line, '\n') && (line == [] || (!IsSpace(line[0]) && !IsSpace(line[|line| - 1])))
  }

  /** Every line of a card is tidy. */
  lemma {:induction false} CardLinesShape(es: seq<Entry>)
    requires forall k :: 0 <= k < |es| ==> Printable(es[k])
    ensures forall i :: 0 <= i < |CardLines(es)| ==> Tidy(CardLines(es)[i])
    decreases |es|
  {
    if es != [] {
      CardLinesShape(es[1..]);
      EntryLinesShape(es[0]);
      TidyConcat(EntryLines(es[0]), CardLines(es[1..]));
    }
  }

  lemma TidyConcat(a: seq<string>, b: seq<string>)
    requires forall i :: 0 <= i < |a| ==> Tidy(a[i])
    requires forall i :: 0 <= i < |b| ==> Tidy(b[i])
    ensures forall i :: 0 <= i < |a + b| ==> Tidy((a + b)[i])
  {
  }

  lemma EntryLinesShape(e: Entry)
    requires Printable(e)
    ensures Tidy(HeaderLine(e)) && Tidy(e.mark) && Tidy(e.name) && Tidy(InfoLine(e))
  {
    DigitsLineTidy(NatToString(e.frame), NatToString(e.number));
    MarkTidy(e.mark);
    InfoTidy(e);
  }

  lemma DigitsLineTidy(a: string, b: string)
    requires a != [] && AllDigits(a) && b != [] && AllDigits(b)
    ensures Tidy(a + " " + b)
  {
    var h := a + " " + b;
    assert h[0] == a[0] && h[|h| - 1] == b[|b| - 1];
    assert !IsSpace(a[0]) && !IsSpace(b[|b| - 1]);
    forall i | 0 <= i < |h|
      ensures h[i] != '\n'
    {
      if i < |a| {
        assert h[i] == a[i];
      } else if i > |a| {
        assert h[i] == b[i - |a| - 1];
      }
    }
  }

  lemma InfoTidy(e: Entry)
    requires Printable(e)
    ensures Tidy(InfoLine(e))
  {
    var fs := InfoFields(e);
    InfoFieldsShape(e);
    JoinFree(fs, '\t', '\n');
    JoinEnds(fs, '\t');
  }

  lemma MarkTidy(m: string)
    requires IsMark(m)
    ensures Tidy(m)
  {
  }

  lemma InfoFieldsShape(e: Entry)
    requires Printable(e)
    ensures |InfoFields(e)| == if e.bodyWeight.Some? then 7 else 6
    ensures forall i :: 0 <= i < |InfoFields(e)| ==> Field(InfoFields(e)[i])
    ensures InfoFields(e)[0][0] == e.sex
    ensures var p := NatToString(e.popularity); InfoFields(e)[|InfoFields(e)| - 1] == p && !IsSpace(p[|p| - 1])
  {
    var fs := InfoFields(e);
    forall i | 0 <= i < |fs|
      ensures Field(fs[i])
    {
      if i != 2 && i != 3 {
        assert forall j :: 0 <= j < |fs[i]| ==> IsDigit(fs[i][j]) || fs[i][j] in "(0)" || fs[i][j] == e.sex;
      }
    }
  }

  lemma {:induction false} JoinFree(parts: seq<string>, sep: char, c: char)
    requires |parts| >= 1 && sep != c
    requires forall i :: 0 <= i < |parts| ==> Free(parts[i], c)
    ensures Free(Join(parts, sep), c)
    decreases |parts|
  {
    if |parts| > 1 {
      JoinFree(parts[1..], sep, c);
    }
  }

  lemma {:induction false} JoinEnds(parts: seq<string>, sep: char)
    requires |parts| >= 1 && forall i :: 0 <= i < |parts| ==> parts[i] != []
    ensures var s := Join(parts, sep);
      && s != [] && s[0] == parts[0][0]
      && s[|s| - 1] == parts[|parts| - 1][|parts[|parts| - 1]| - 1]
    decreases |parts|
  {
    if |parts| > 1 {
      JoinEnds(parts[1..], sep);
    }
  }

  /** A card's lines from entry `k` on are the lines of the entries from `k` on. */
  lemma {:induction false} CardSuffix(es: seq<Entry>, k: nat)
    requires k <= |es|
    ensures CardLines(es)[4 * k..] == CardLines(es[k..])
    decreases k
  {
    if k > 0 {
      CardSuffix(es[1..], k - 1);
      assert es[1..][k - 1..] == es[k..];
    }
  }

  /** Classifying the info line of a printable entry reads its details. */
  lemma InfoClassified(e: Entry)
    requires Printable(e)
    ensures InfoLine(e) != "" && Classify(InfoLine(e)).info == Some(InfoOf(e))
  {
    var fs := InfoFields(e);
    InfoFieldsShape(e);
    SplitTabsAfterJoin(fs);
    JoinStarts(fs, '\t');
    ReadEntry(e);
  }

  /** The info fields of a printable entry read back as its details. */
  lemma ReadEntry(e: Entry)
    requires Printable(e)
    ensures |InfoFields(e)| >= 6
    ensures Read(InfoFields(e)) == InfoOf(e)
  {
    var fs := InfoFields(e);
    InfoFieldsShape(e);
    assert fs[0] == [e.sex] + NatToString(e.age) && fs[1] == NatToString(e.weight) && fs[2] == e.jockey;
    SexAgeReads(e.sex, e.age);
    OddsAtEntry(e);
    var i := OddsAt(fs);
    ParseIntNatToString(e.popularity);
    ParseFloatNatToString(e.weight);
    ParseFloatNatToString(e.odds);
    assert Read(fs) == Info(SexOf(fs[0]), AgeOf(fs[0]), ParseFloat(fs[1]), fs[2], ParseFloat(fs[i]), ParseInt(fs[i + 1]));
  }

  lemma SexAgeReads(sex: char, age: nat)
    ensures SexOf([sex] + NatToString(age)) == [sex]
    ensures AgeOf([sex] + NatToString(age)) == Some(age)
  {
    var s := [sex] + NatToString(age);
    assert s[..1] == [sex] && s[1..] == NatToString(age);
    ParseIntNatToString(age);
  }

  /** The odds of a printed entry are found after its body weight, if any. */
  lemma OddsAtEntry(e: Entry)
    requires Printable(e)
    ensures |InfoFields(e)| >= 6
    ensures var fs := InfoFields(e);
      fs[OddsAt(fs)] == NatToString(e.odds) && fs[OddsAt(fs) + 1] == NatToString(e.popularity)
  {
    InfoFieldsShape(e);
    match e.bodyWeight
    case None =>
    case Some(b) =>
      BodyWeightReads(b);
  }

  /** Two digit runs separated by one space read as a header of their values. */
  lemma HeaderReads(a: string, b: string)
    requires a != [] && AllDigits(a) && b != [] && AllDigits(b)
    ensures Header(a + " " + b) == Some((DigitsValue(a), DigitsValue(b)))
  {
    var line := a + " " + b;
    assert DigitRun(line) == |a| by {
      assert line == a + (" " + b);
      DigitRunPrefix(a, " " + b);
    }
    assert SpaceRun(line[|a|..]) == 1 by {
      assert line[|a|..] == " " + b;
      SpaceThenDigits(b);
    }
    assert line[|a| + 1..] == b && line[..|a|] == a;
  }

  lemma SpaceThenDigits(b: string)
    requires b != [] && IsDigit(b[0])
    ensures SpaceRun(" " + b) == 1
  {
    assert (" " + b)[1..] == b;
    assert !IsSpace(b[0]);
  }

  lemma BodyWeightReads(b: nat)
    ensures BodyWeight(NatToString(b) + "(0)")
  {
    var a := NatToString(b);
    DigitRunPrefix(a, "(0)");
  }
}
