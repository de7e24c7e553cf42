/** The structural pass over a tunnel configuration in internal/config/tunnel.go: which line belongs
    to which section, before any value is looked at. */
module ConfigScan {
  import opened Basics
  import opened Text

  datatype KV = KV(key: string, value: string, line: nat)

  datatype Scan = Scan(iface: seq<KV>, peers: seq<seq<KV>>, interfaceKeys: set<string>)

  datatype ScanError = UnknownSection(line: nat) | OutsideSection(line: nat) | NoSeparator(line: nat) | NoInterface

  // --- One line -------------------------------------------------------------------------

  datatype Line = Blank | InterfaceHeader | PeerHeader | UnknownHeader | Entry(key: string, value: string) | NoEquals

  function StripComment(raw: string): string {
    match Cut(raw, '#')
    case None => raw
    case Some((before, _)) => before
  }

  /** The section pattern: a bracket at either end and something between them. */
  predicate IsSection(l: string) {
    |l| >= 3 && l[0] == '[' && l[|l| - 1] == ']'
  }

  function Classify(raw: string): Line {
    ClassifyTrimmed(TrimSpace(StripComment(raw)))
  }

  function ClassifyTrimmed(l: string): Line {
    if l == "" then Blank
    else if IsSection(l) then
      var name := Lower(TrimSpace(l[1..|l| - 1]));
      if name == "interface" then InterfaceHeader else if name == "peer" then PeerHeader else UnknownHeader
    else
      match Cut(l, '=')
      case None => NoEquals
      case Some((key, value)) => Entry(Lower(TrimSpace(key)), TrimSpace(value))
  }

  function ClassifyAll(raws: seq<string>): (ls: seq<Line>)
    ensures |ls| == |raws| && forall i :: 0 <= i < |raws| ==> ls[i] == Classify(raws[i])
  {
    seq(|raws|, i requires 0 <= i < |raws| => Classify(raws[i]))
  }

  predicate IsHeader(l: Line) {
    l.InterfaceHeader? || l.PeerHeader?
  }

  // --- The accumulators -----------------------------------------------------------------

  datatype Section = NoSection | InInterface | InPeer

  datatype Acc = Acc(section: Section, iface: seq<KV>, peers: seq<seq<KV>>, current: seq<KV>)

  function Flushed(a: Acc): Acc {
    a.(peers := if a.section.InPeer? then a.peers + [a.current] else a.peers, current := [])
  }

  function Step(a: Acc, l: Line, lineNo: nat): Result<Acc, ScanError> {
    match l
    case Blank => Ok(a)
    case InterfaceHeader => Ok(Flushed(a).(section := InInterface))
    case PeerHeader => Ok(Flushed(a).(section := InPeer))
    case UnknownHeader => Err(UnknownSection(lineNo))
    case NoEquals => Err(if a.section.NoSection? then OutsideSection(lineNo) else NoSeparator(lineNo))
    case Entry(key, value) =>
      var e := KV(key, value, lineNo);
      if a.section.NoSection? then Err(OutsideSection(lineNo))
      else Ok(if a.section.InInterface? then a.(iface := a.iface + [e]) else a.(current := a.current + [e]))
  }

  /** The accumulators after the first `n` lines. */
  function After(ls: seq<Line>, n: nat): Result<Acc, ScanError>
    requires n <= |ls|
  {
    if n == 0 then Ok(Acc(NoSection, [], [], []))
    else
      match After(ls, n - 1)
      case Err(e) => Err(e)
      case Ok(a) => Step(a, ls[n - 1], n)
  }

  function Keys(es: seq<KV>): set<string> {
    set e | e in es :: e.key
  }

  function ScanLines(ls: seq<Line>): Result<Scan, ScanError> {
    match After(ls, |ls|)
    case Err(e) => Err(e)
    case Ok(a) =>
      if a.iface == [] then Err(NoInterface) else Ok(Scan(a.iface, Flushed(a).peers, Keys(a.iface)))
  }

  function ScanText(text: string): Result<Scan, ScanError> {
    ScanLines(ClassifyAll(Split(text, '\n')))
  }

  lemma {:induction false} ErrorsStay(ls: seq<Line>, n: nat, m: nat)
    requires n <= m <= |ls| && After(ls, n).Err?
    ensures After(ls, m) == After(ls, n)
    decreases m
  {
    if n < m {
      ErrorsStay(ls, n, m - 1);
    }
  }

  lemma KeysSnoc(es: seq<KV>, e: KV)
    ensures Keys(es + [e]) == Keys(es) + {e.key}
  {
  }

  /** `scanConfig`. */
  method ScanConfig(text: string) returns (r: Result<Scan, ScanError>)
    ensures r == ScanText(text)
  {
    r := ScanClassified(ClassifyAll(Split(text, '\n')));
  }

  /** Its loop. */
  method ScanClassified(ls: seq<Line>) returns (r: Result<Scan, ScanError>)
    ensures r == ScanLines(ls)
  {
    var iface: seq<KV>, peers: seq<seq<KV>>, interfaceKeys: set<string> := [], [], {};
    var section, current: seq<KV> := NoSection, [];
    for i := 0 to |ls|
      invariant After(ls, i) == Ok(Acc(section, iface, peers, current)) && interfaceKeys == Keys(iface)
    {
      var lineNo := i + 1;
      if After(ls, lineNo).Err? {
        ErrorsStay(ls, lineNo, |ls|);
      }
      var line := ls[i];
      if line == Blank {
        continue;
      }
      if line == UnknownHeader {
        return Err(UnknownSection(lineNo));
      }
      if IsHeader(line) {
        if section == InPeer {
          peers := peers + [current];
        }
        current := [];
        section := if line == InterfaceHeader then InInterface else InPeer;
        continue;
      }
      if section == NoSection {
        return Err(OutsideSection(lineNo));
      }
      if line == NoEquals {
        return Err(NoSeparator(lineNo));
      }
      var e := KV(line.key, line.value, lineNo);
      if section == InInterface {
        KeysSnoc(iface, e);
        iface, interfaceKeys := iface + [e], interfaceKeys + {e.key};
      } else {
        current := current + [e];
      }
    }
    if section == InPeer {
      peers := peers + [current];
    }
    if |iface| == 0 {
      return Err(NoInterface);
    }
    return Ok(Scan(iface, peers, interfaceKeys));
  }

  // --- What the accumulators hold -------------------------------------------------------

  /** The last section header before line `n` (counted from zero). */
  function Governing(ls: seq<Line>, n: nat): (h: Option<nat>)
    requires n <= |ls|
    ensures h.Some? ==> h.value < n && IsHeader(ls[h.value])
  {
    if n == 0 then None else if IsHeader(ls[n - 1]) then Some(n - 1) else Governing(ls, n - 1)
  }

  predicate InInterfaceAt(ls: seq<Line>, i: nat)
    requires i < |ls|
  {
    Governing(ls, i).Some? && ls[Governing(ls, i).value].InterfaceHeader?
  }

  /** The entries among the first `n` lines that stand under an [Interface] header. */
  function InterfaceEntries(ls: seq<Line>, n: nat): seq<KV>
    requires n <= |ls|
  {
    if n == 0 then []
    else if ls[n - 1].Entry? && InInterfaceAt(ls, n - 1) then
      InterfaceEntries(ls, n - 1) + [KV(ls[n - 1].key, ls[n - 1].value, n)]
    else InterfaceEntries(ls, n - 1)
  }

  /** The entries among the first `n` lines that stand under the header at `h`. */
  function EntriesUnder(ls: seq<Line>, n: nat, h: nat): seq<KV>
    requires n <= |ls|
  {
    if n == 0 then []
    else if ls[n - 1].Entry? && Governing(ls, n - 1) == Some(h) then
      EntriesUnder(ls, n - 1, h) + [KV(ls[n - 1].key, ls[n - 1].value, n)]
    else EntriesUnder(ls, n - 1, h)
  }

  /** The positions of the [Peer] headers, in order. */
  function PeerHeaders(ls: seq<Line>, n: nat): seq<nat>
    requires n <= |ls|
  {
    if n == 0 then []
    else if ls[n - 1].PeerHeader? then PeerHeaders(ls, n - 1) + [n - 1]
    else PeerHeaders(ls, n - 1)
  }

  function PeerSections(ls: seq<Line>, n: nat): seq<seq<KV>>
    requires n <= |ls|
  {
    var hs := PeerHeaders(ls, n);
    seq(|hs|, k requires 0 <= k < |hs| => EntriesUnder(ls, n, hs[k]))
  }

  predicate LineOk(ls: seq<Line>, i: nat)
    requires i < |ls|
  {
    !ls[i].UnknownHeader? && !ls[i].NoEquals? && (ls[i].Entry? ==> Governing(ls, i).Some?)
  }

  predicate AllOk(ls: seq<Line>, n: nat)
    requires n <= |ls|
  {
    forall i :: 0 <= i < n ==> LineOk(ls, i)
  }

  predicate PeerPositions(ls: seq<Line>, hs: seq<nat>, n: nat)
    requires n <= |ls|
  {
    && (forall k :: 0 <= k < |hs| ==> hs[k] < n)
    && (forall k :: 0 <= k < |hs| ==> hs[k] < |ls| && ls[hs[k]].PeerHeader?)
    && (forall j, k :: 0 <= j < k < |hs| ==> hs[j] < hs[k])
  }

  lemma PositionsSnoc(ls: seq<Line>, hs: seq<nat>, n: nat)
    requires n < |ls| && PeerPositions(ls, hs, n)
    ensures PeerPositions(ls, hs, n + 1)
    ensures ls[n].PeerHeader? ==> PeerPositions(ls, hs + [n], n + 1)
  {
  }

  lemma {:induction false} PeerHeadersAre(ls: seq<Line>, n: nat)
    requires n <= |ls|
    ensures PeerPositions(ls, PeerHeaders(ls, n), n)
    ensures Governing(ls, n).Some? && ls[Governing(ls, n).value].PeerHeader? ==>
              PeerHeaders(ls, n) != [] && PeerHeaders(ls, n)[|PeerHeaders(ls, n)| - 1] == Governing(ls, n).value
  {
    if n > 0 {
      PeerHeadersAre(ls, n - 1);
      PositionsSnoc(ls, PeerHeaders(ls, n - 1), n - 1);
    }
  }

  lemma {:induction false} NothingUnderLater(ls: seq<Line>, n: nat, h: nat)
    requires n <= |ls| && h >= n
    ensures EntriesUnder(ls, n, h) == []
  {
    if n > 0 {
      NothingUnderLater(ls, n - 1, h);
    }
  }

  /** How one line changes the peer sections. */
  lemma PeerSectionsStep(ls: seq<Line>, n: nat)
    requires n < |ls|
    ensures PeerSections(ls, n + 1) ==
            if ls[n].PeerHeader? then PeerSections(ls, n) + [[]]
            else if ls[n].Entry? && Governing(ls, n).Some? && ls[Governing(ls, n).value].PeerHeader? then
              var ps := PeerSections(ls, n);
              if ps == [] then [] else ps[..|ps| - 1] + [ps[|ps| - 1] + [KV(ls[n].key, ls[n].value, n + 1)]]
            else PeerSections(ls, n)
  {
    PeerHeadersAre(ls, n);
    PeerHeadersAre(ls, n + 1);
    NothingUnderLater(ls, n, n);
    var hs, hs', ps, ps' := PeerHeaders(ls, n), PeerHeaders(ls, n + 1), PeerSections(ls, n), PeerSections(ls, n + 1);
    forall k | 0 <= k < |hs|
      ensures hs'[k] == hs[k]
      ensures ps'[k] == if ls[n].Entry? && Governing(ls, n) == Some(hs[k]) then ps[k] + [KV(ls[n].key, ls[n].value, n + 1)]
                        else ps[k]
    {
    }
    if ls[n].PeerHeader? {
      assert hs' == hs + [n] && hs'[|hs|] == n && EntriesUnder(ls, n + 1, n) == [];
      assert ps' == ps + [[]];
    }
  }

  /** The accumulators in terms of the lines: a prefix is accepted when each of its lines is, and
      then the current section is that of the governing header. */
  lemma {:induction false} AfterMeans(ls: seq<Line>, n: nat)
    requires n <= |ls|
    ensures After(ls, n).Ok? <==> AllOk(ls, n)
    ensures After(ls, n).Ok? ==>
              var a := After(ls, n).value;
              && a.section == (match Governing(ls, n)
                               case None => NoSection
                               case Some(h) => if ls[h].InterfaceHeader? then InInterface else InPeer)
              && a.iface == InterfaceEntries(ls, n)
              && Flushed(a).peers == PeerSections(ls, n)
              && (!a.section.InPeer? ==> a.current == [])
  {
    if n > 0 {
      AfterMeans(ls, n - 1);
      PeerSectionsStep(ls, n - 1);
      if AllOk(ls, n) {
        assert LineOk(ls, n - 1) && AllOk(ls, n - 1);
      }
    }
  }

  /** The offending line that is reported is the first one. */
  lemma {:induction false} FirstErrorReported(ls: seq<Line>, n: nat)
    requires n <= |ls| && After(ls, n).Err?
    ensures var e := After(ls, n).error;
      && !e.NoInterface? && 1 <= e.line <= n && AllOk(ls, e.line - 1) && !LineOk(ls, e.line - 1)
      && (e.UnknownSection? <==> ls[e.line - 1].UnknownHeader?)
      && (e.OutsideSection? <==> !ls[e.line - 1].UnknownHeader? && Governing(ls, e.line - 1).None?)
  {
    AfterMeans(ls, n - 1);
    AfterMeans(ls, n);
    if After(ls, n - 1).Err? {
      FirstErrorReported(ls, n - 1);
    }
  }

  // --- Results --------------------------------------------------------------------------

  function LinesOf(text: string): seq<Line> {
    ClassifyAll(Split(text, '\n'))
  }

  lemma {:induction false} InterfaceEntriesAre(ls: seq<Line>, n: nat, e: KV)
    requires n <= |ls|
    ensures e in InterfaceEntries(ls, n) <==>
              1 <= e.line <= n && ls[e.line - 1] == Entry(e.key, e.value) && InInterfaceAt(ls, e.line - 1)
    ensures InterfaceEntries(ls, n) == [] <==> forall i :: 0 <= i < n ==> !(ls[i].Entry? && InInterfaceAt(ls, i))
  {
    if n > 0 {
      InterfaceEntriesAre(ls, n - 1, e);
    }
  }

  lemma {:induction false} EntriesUnderAre(ls: seq<Line>, n: nat, h: nat, e: KV)
    requires n <= |ls|
    ensures e in EntriesUnder(ls, n, h) <==>
              1 <= e.line <= n && ls[e.line - 1] == Entry(e.key, e.value) && Governing(ls, e.line - 1) == Some(h)
  {
    if n > 0 {
      EntriesUnderAre(ls, n - 1, h, e);
    }
  }

  predicate LinesAscend(es: seq<KV>) {
    forall i, j :: 0 <= i < j < |es| ==> es[i].line < es[j].line
  }

  predicate Ascends(es: seq<KV>, n: nat) {
    LinesAscend(es) && forall i :: 0 <= i < |es| ==> 1 <= es[i].line <= n
  }

  lemma AscendsSnoc(es: seq<KV>, e: KV, n: nat)
    requires Ascends(es, n) && e.line == n + 1
    ensures Ascends(es + [e], n + 1) && Ascends(es, n + 1)
  {
  }

  lemma {:induction false} InterfaceAscends(ls: seq<Line>, n: nat)
    requires n <= |ls|
    ensures Ascends(InterfaceEntries(ls, n), n)
  {
    if n > 0 {
      InterfaceAscends(ls, n - 1);
      var l := ls[n - 1];
      AscendsSnoc(InterfaceEntries(ls, n - 1), if l.Entry? then KV(l.key, l.value, n) else KV("", "", n), n - 1);
    }
  }

  lemma {:induction false} UnderAscends(ls: seq<Line>, n: nat, h: nat)
    requires n <= |ls|
    ensures Ascends(EntriesUnder(ls, n, h), n)
  {
    if n > 0 {
      UnderAscends(ls, n - 1, h);
      var l := ls[n - 1];
      AscendsSnoc(EntriesUnder(ls, n - 1, h), if l.Entry? then KV(l.key, l.value, n) else KV("", "", n), n - 1);
    }
  }

  /** A text is accepted exactly when every line is blank, a known header, or an entry below one,
      and some entry stands in [Interface]. */
  lemma AcceptedExactly(text: string)
    ensures var ls := LinesOf(text);
      ScanText(text).Ok? <==>
        AllOk(ls, |ls|) && exists i :: 0 <= i < |ls| && ls[i].Entry? && InInterfaceAt(ls, i)
  {
    var ls := LinesOf(text);
    AfterMeans(ls, |ls|);
    InterfaceEntriesAre(ls, |ls|, KV("", "", 0));
  }

  /** On an accepted text: one peer for each [Peer] header, holding the entries under that header;
      every entry line, with its number, is in exactly one section, once, and in order; and a
      section holds nothing else. */
  lemma EveryEntryOnce(text: string, e: KV)
    requires ScanText(text).Ok?
    ensures var ls, s := LinesOf(text), ScanText(text).value;
      var hs := PeerHeaders(ls, |ls|);
      var isLine := 1 <= e.line <= |ls| && ls[e.line - 1] == Entry(e.key, e.value);
      && |s.peers| == |hs|
      && (isLine ==> Governing(ls, e.line - 1).Some?)
      && (e in s.iface <==> isLine && InInterfaceAt(ls, e.line - 1))
      && (forall k :: 0 <= k < |hs| ==> (e in s.peers[k] <==> isLine && Governing(ls, e.line - 1) == Some(hs[k])))
      && (isLine && !InInterfaceAt(ls, e.line - 1) ==> exists k :: 0 <= k < |hs| && hs[k] == Governing(ls, e.line - 1).value)
      && (forall j, k :: 0 <= j < k < |hs| ==> hs[j] < hs[k])
      && LinesAscend(s.iface) && (forall k :: 0 <= k < |hs| ==> LinesAscend(s.peers[k]))
      && (e.key in s.interfaceKeys <== e in s.iface)
  {
    var ls, s := LinesOf(text), ScanText(text).value;
    var hs := PeerHeaders(ls, |ls|);
    AfterMeans(ls, |ls|);
    PeerHeadersAre(ls, |ls|);
    InterfaceEntriesAre(ls, |ls|, e);
    InterfaceAscends(ls, |ls|);
    forall k | 0 <= k < |hs|
      ensures e in s.peers[k] <==>
                1 <= e.line <= |ls| && ls[e.line - 1] == Entry(e.key, e.value) && Governing(ls, e.line - 1) == Some(hs[k])
      ensures LinesAscend(s.peers[k])
    {
      EntriesUnderAre(ls, |ls|, hs[k], e);
      UnderAscends(ls, |ls|, hs[k]);
    }
    if 1 <= e.line <= |ls| && ls[e.line - 1] == Entry(e.key, e.value) {
      assert LineOk(ls, e.line - 1);
      if !InInterfaceAt(ls, e.line - 1) {
        PeerHeaderListed(ls, |ls|, Governing(ls, e.line - 1).value);
      }
    }
  }

  lemma {:induction false} PeerHeaderListed(ls: seq<Line>, n: nat, h: nat)
    requires h < n <= |ls| && ls[h].PeerHeader?
    ensures exists k :: 0 <= k < |PeerHeaders(ls, n)| && PeerHeaders(ls, n)[k] == h
  {
    if h == n - 1 {
      assert PeerHeaders(ls, n)[|PeerHeaders(ls, n - 1)|] == h;
    } else {
      PeerHeaderListed(ls, n - 1, h);
      var k :| 0 <= k < |PeerHeaders(ls, n - 1)| && PeerHeaders(ls, n - 1)[k] == h;
      assert PeerHeaders(ls, n)[k] == h;
    }
  }

  // --- The printer ----------------------------------------------------------------------

  datatype DocSection = DocSection(isPeer: bool, entries: seq<(string, string)>)

  /** What a key and a value must not hold, so that the line they make is read as meant. */
  predicate Printable(key: string, value: string) {
    && key != "" && Trimmed(key) && Trimmed(value)
    && '=' !in key && '#' !in key && '#' !in value && '\n' !in key && '\n' !in value
    && !(key[0] == '[' && value != "" && value[|value| - 1] == ']')
  }

  predicate DocOk(doc: seq<DocSection>) {
    forall i, j :: 0 <= i < |doc| && 0 <= j < |doc[i].entries| ==> Printable(doc[i].entries[j].0, doc[i].entries[j].1)
  }

  function EntryLine(e: (string, string)): string {
    e.0 + " = " + e.1
  }

  function HeaderLine(isPeer: bool): string {
    "[" + (if isPeer then "Peer" else "Interface") + "]"
  }

  function EntryLines(es: seq<(string, string)>): seq<string> {
    seq(|es|, i requires 0 <= i < |es| => EntryLine(es[i]))
  }

  function DocLines(doc: seq<DocSection>): seq<string> {
    if doc == [] then []
    else
      var s := doc[|doc| - 1];
      DocLines(doc[..|doc| - 1]) + [HeaderLine(s.isPeer)] + EntryLines(s.entries)
  }

  function Print(doc: seq<DocSection>): string
    requires doc != []
    requires DocLines(doc) != []
  {
    Join(DocLines(doc), '\n')
  }

  function Pairs(es: seq<KV>): seq<(string, string)> {
    seq(|es|, i requires 0 <= i < |es| => (es[i].key, es[i].value))
  }

  function LowerKeys(es: seq<(string, string)>): seq<(string, string)> {
    seq(|es|, i requires 0 <= i < |es| => (Lower(es[i].0), es[i].1))
  }

  /** The interface entries of a document, and its peers. */
  function DocInterface(doc: seq<DocSection>): seq<(string, string)> {
    if doc == [] then []
    else DocInterface(doc[..|doc| - 1]) + if doc[|doc| - 1].isPeer then [] else LowerKeys(doc[|doc| - 1].entries)
  }

  function DocPeers(doc: seq<DocSection>): seq<seq<(string, string)>> {
    if doc == [] then []
    else DocPeers(doc[..|doc| - 1]) + if doc[|doc| - 1].isPeer then [LowerKeys(doc[|doc| - 1].entries)] else []
  }

  lemma NoComment(s: string)
    requires '#' !in s
    ensures StripComment(s) == s
  {
    CutParts(s, '#');
  }

  lemma TrimEntryLine(key: string, value: string)
    requires Printable(key, value)
    ensures StripComment(EntryLine((key, value))) == EntryLine((key, value))
    ensures TrimSpace(EntryLine((key, value))) == (key + " ") + ['='] + if value == "" then "" else " " + value
  {
    var raw := EntryLine((key, value));
    assert forall c :: c in raw ==> c in key || c in " = " || c in value;
    NoComment(raw);
    if value == "" {
      var l := key + " =";
      assert raw == l + " " && l[0] == key[0] && l == (key + " ") + ['='] + "";
      TrimPadding(l);
    } else {
      assert raw == (key + " ") + ['='] + (" " + value) && raw[0] == key[0];
      TrimNothing(raw);
    }
  }

  lemma ClassifyEntry(key: string, value: string)
    requires Printable(key, value)
    ensures Classify(EntryLine((key, value))) == Entry(Lower(key), value)
  {
    TrimEntryLine(key, value);
    var l := TrimSpace(EntryLine((key, value)));
    var k, v := key + " ", if value == "" then "" else " " + value;
    CutAt(k, '=', v);
    assert l[0] == key[0] && (value != "" ==> l[|l| - 1] == value[|value| - 1]) && !IsSection(l);
    TrimPadding(key);
    TrimPadding(value);
  }

  lemma ClassifyHeader(isPeer: bool)
    ensures Classify(HeaderLine(isPeer)) == if isPeer then PeerHeader else InterfaceHeader
  {
    var name := if isPeer then "Peer" else "Interface";
    BracketedLine(name);
    LowerNames();
  }

  lemma LowerNames()
    ensures Lower("Interface") == "interface" && Lower("Peer") == "peer"
  {
  }

  lemma BracketedLine(name: string)
    requires name != "" && Trimmed(name) && '#' !in name
    ensures var l := Lower(name);
      Classify("[" + name + "]")
      == if l == "interface" then InterfaceHeader else if l == "peer" then PeerHeader else UnknownHeader
  {
    var raw := "[" + name + "]";
    NoComment(raw);
    TrimNothing(raw);
    TrimNothing(name);
    assert raw[1..|raw| - 1] == name;
  }

  /** The accumulators only look at the lines before them. */
  lemma {:induction false} AfterPrefix(ls: seq<Line>, more: seq<Line>, n: nat)
    requires n <= |ls|
    ensures After(ls + more, n) == After(ls, n)
  {
    if n > 0 {
      AfterPrefix(ls, more, n - 1);
    }
  }

  lemma AfterSnoc(ls: seq<Line>, l: Line)
    ensures After(ls + [l], |ls| + 1)
            == match After(ls, |ls|) case Err(e) => Err(e) case Ok(a) => Step(a, l, |ls| + 1)
  {
    AfterPrefix(ls, [l], |ls|);
  }

  /** The accumulators without their line numbers. */
  datatype View = View(section: Section, iface: seq<(string, string)>, peers: seq<seq<(string, string)>>,
                       current: seq<(string, string)>)

  function ViewOf(a: Acc): View {
    View(a.section, Pairs(a.iface), seq(|a.peers|, k requires 0 <= k < |a.peers| => Pairs(a.peers[k])), Pairs(a.current))
  }

  function WithEntries(v: View, ps: seq<(string, string)>): View {
    if v.section.InInterface? then v.(iface := v.iface + ps) else v.(current := v.current + ps)
  }

  function Opened(v: View, isPeer: bool): View {
    View(if isPeer then InPeer else InInterface, v.iface, if v.section.InPeer? then v.peers + [v.current] else v.peers, [])
  }

  lemma ViewOfEntry(a: Acc, key: string, value: string, lineNo: nat)
    requires !a.section.NoSection?
    ensures var r := Step(a, Entry(key, value), lineNo);
      r.Ok? && ViewOf(r.value) == WithEntries(ViewOf(a), [(key, value)])
  {
    var e := KV(key, value, lineNo);
    assert Pairs(a.iface + [e]) == Pairs(a.iface) + [(key, value)];
    assert Pairs(a.current + [e]) == Pairs(a.current) + [(key, value)];
  }

  lemma ViewOfHeader(a: Acc, isPeer: bool, lineNo: nat)
    ensures var r := Step(a, HeaderItem(isPeer), lineNo);
      r.Ok? && ViewOf(r.value) == Opened(ViewOf(a), isPeer)
  {
    assert Pairs([]) == [];
  }

  function HeaderItem(isPeer: bool): Line {
    if isPeer then PeerHeader else InterfaceHeader
  }

  function EntryItems(es: seq<(string, string)>): seq<Line> {
    seq(|es|, i requires 0 <= i < |es| => Entry(Lower(es[i].0), es[i].1))
  }

  /** The lines of a document, as they are classified, and the view that scanning them ends in. */
  function DocItems(doc: seq<DocSection>): seq<Line> {
    if doc == [] then []
    else DocItems(doc[..|doc| - 1]) + [HeaderItem(doc[|doc| - 1].isPeer)] + EntryItems(doc[|doc| - 1].entries)
  }

  function DocView(doc: seq<DocSection>): View {
    if doc == [] then View(NoSection, [], [], [])
    else
      var s := doc[|doc| - 1];
      WithEntries(Opened(DocView(doc[..|doc| - 1]), s.isPeer), LowerKeys(s.entries))
  }

  lemma ClassifyAppend(a: seq<string>, b: seq<string>)
    ensures ClassifyAll(a + b) == ClassifyAll(a) + ClassifyAll(b)
  {
  }

  lemma EntriesClassified(es: seq<(string, string)>)
    requires forall j :: 0 <= j < |es| ==> Printable(es[j].0, es[j].1)
    ensures ClassifyAll(EntryLines(es)) == EntryItems(es)
  {
    forall i | 0 <= i < |es|
      ensures Classify(EntryLines(es)[i]) == EntryItems(es)[i]
    {
      ClassifyEntry(es[i].0, es[i].1);
    }
  }

  lemma {:induction false} DocClassified(doc: seq<DocSection>)
    requires DocOk(doc)
    ensures ClassifyAll(DocLines(doc)) == DocItems(doc)
    decreases |doc|
  {
    if doc != [] {
      var front, s := doc[..|doc| - 1], doc[|doc| - 1];
      DocClassified(front);
      ClassifyHeader(s.isPeer);
      EntriesClassified(s.entries);
      ClassifyAppend(DocLines(front) + [HeaderLine(s.isPeer)], EntryLines(s.entries));
      ClassifyAppend(DocLines(front), [HeaderLine(s.isPeer)]);
      assert ClassifyAll([HeaderLine(s.isPeer)]) == [HeaderItem(s.isPeer)];
    }
  }

  ghost predicate Reads(ls: seq<Line>, v: View) {
    After(ls, |ls|).Ok? && ViewOf(After(ls, |ls|).value) == v
  }

  lemma {:induction false} EntriesRead(ls: seq<Line>, es: seq<(string, string)>, v: View)
    requires Reads(ls, v) && !v.section.NoSection?
    ensures Reads(ls + EntryItems(es), WithEntries(v, LowerKeys(es)))
    decreases |es|
  {
    if es == [] {
      assert ls + EntryItems(es) == ls && WithEntries(v, LowerKeys(es)) == v;
    } else {
      var front, e := es[..|es| - 1], es[|es| - 1];
      var before := ls + EntryItems(front);
      EntriesRead(ls, front, v);
      AfterSnoc(before, Entry(Lower(e.0), e.1));
      ViewOfEntry(After(before, |before|).value, Lower(e.0), e.1, |before| + 1);
      assert ls + EntryItems(es) == before + [Entry(Lower(e.0), e.1)];
      assert LowerKeys(es) == LowerKeys(front) + [(Lower(e.0), e.1)];
      assert WithEntries(v, LowerKeys(es)) == WithEntries(WithEntries(v, LowerKeys(front)), [(Lower(e.0), e.1)]);
    }
  }

  lemma {:induction false} DocRead(doc: seq<DocSection>)
    ensures Reads(DocItems(doc), DocView(doc))
    decreases |doc|
  {
    if doc != [] {
      var front, s := doc[..|doc| - 1], doc[|doc| - 1];
      var before := DocItems(front);
      DocRead(front);
      AfterSnoc(before, HeaderItem(s.isPeer));
      ViewOfHeader(After(before, |before|).value, s.isPeer, |before| + 1);
      EntriesRead(before + [HeaderItem(s.isPeer)], s.entries, Opened(DocView(front), s.isPeer));
    }
  }

  /** What the view holds once its last section is flushed. */
  lemma {:induction false} DocViewHolds(doc: seq<DocSection>)
    ensures var v := DocView(doc);
      && v.iface == DocInterface(doc)
      && (if v.section.InPeer? then v.peers + [v.current] else v.peers) == DocPeers(doc)
    decreases |doc|
  {
    if doc != [] {
      DocViewHolds(doc[..|doc| - 1]);
      var ps := LowerKeys(doc[|doc| - 1].entries);
      assert [] + ps == ps;
    }
  }

  lemma {:induction false} DocLinesWhole(doc: seq<DocSection>)
    requires DocOk(doc)
    ensures |DocLines(doc)| >= |doc| && forall i :: 0 <= i < |DocLines(doc)| ==> '\n' !in DocLines(doc)[i]
    decreases |doc|
  {
    if doc != [] {
      DocLinesWhole(doc[..|doc| - 1]);
      EntryLinesWhole(doc[|doc| - 1].entries);
    }
  }

  lemma EntryLinesWhole(es: seq<(string, string)>)
    requires forall j :: 0 <= j < |es| ==> Printable(es[j].0, es[j].1)
    ensures forall i :: 0 <= i < |EntryLines(es)| ==> '\n' !in EntryLines(es)[i]
  {
    forall i | 0 <= i < |es|
      ensures '\n' !in EntryLine(es[i])
    {
      assert Printable(es[i].0, es[i].1);
      assert forall c :: c in EntryLine(es[i]) ==> c in es[i].0 || c in " = " || c in es[i].1;
    }
  }

  /** Scanning inverts printing: every document with an interface entry comes back section by
      section, with its keys in lower case; [Interface] may be split over several sections. */
  lemma ScanPrint(doc: seq<DocSection>)
    requires DocOk(doc) && doc != []
    ensures DocLines(doc) != [] && (ScanText(Print(doc)).Ok? <==> DocInterface(doc) != [])
    ensures ScanText(Print(doc)).Ok? ==>
              var s := ScanText(Print(doc)).value;
              && Pairs(s.iface) == DocInterface(doc) && |s.peers| == |DocPeers(doc)|
              && forall k :: 0 <= k < |s.peers| ==> Pairs(s.peers[k]) == DocPeers(doc)[k]
  {
    DocLinesWhole(doc);
    SplitJoin(DocLines(doc), '\n');
    DocClassified(doc);
    DocRead(doc);
    DocViewHolds(doc);
    var a := After(DocItems(doc), |DocItems(doc)|).value;
    assert |Pairs(a.iface)| == |a.iface|;
    assert ViewOf(a) == DocView(doc);
  }
}
