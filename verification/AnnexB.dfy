/**
 H.264 byte streams (Annex B of ITU-T H.264): finding NAL units by their start codes, the set of
 NAL unit types in a stream, and splitting a stream into access units at its delimiters.
 */
module AnnexB {
  import opened Common

  type Bytes = seq<byte>

  predicate ThreeAt(data: Bytes, i: nat) {
    i + 3 <= |data| && data[i] == 0 && data[i + 1] == 0 && data[i + 2] == 1
  }

  predicate FourAt(data: Bytes, i: nat) {
    i + 4 <= |data| && data[i] == 0 && data[i + 1] == 0 && data[i + 2] == 0 && data[i + 3] == 1
  }

  /** A start code: where it begins, and where the NAL unit after it begins. */
  datatype Start = Start(prefix: nat, payload: nat)

  /** What the scan finds from `i` on. */
  function Starts(data: Bytes, i: nat): seq<Start>
    decreases |data| - i
  {
    if |data| < i + 3 then []
    else if FourAt(data, i) then [Start(i, i + 4)] + Starts(data, i + 4)
    else if ThreeAt(data, i) then [Start(i, i + 3)] + Starts(data, i + 3)
    else Starts(data, i + 1)
  }

  method FindStarts(data: Bytes) returns (starts: seq<Start>)
    ensures starts == Starts(data, 0)
  {
    var i := 0;
    starts := [];
    while i + 3 <= |data|
      invariant starts + Starts(data, i) == Starts(data, 0)
      decreases |data| - i
    {
      if FourAt(data, i) {
        starts := starts + [Start(i, i + 4)];
        i := i + 4;
      } else if ThreeAt(data, i) {
        starts := starts + [Start(i, i + 3)];
        i := i + 3;
      } else {
        i := i + 1;
      }
    }
  }

  // ----- the scan on any data -----

  /** The start code that ends at `payload`, without the scan: it is long exactly when a zero precedes it. */
  ghost predicate IsStart(data: Bytes, s: Start) {
    && 3 <= s.payload && ThreeAt(data, s.payload - 3)
    && s.prefix == if 4 <= s.payload && data[s.payload - 4] == 0 then s.payload - 4 else s.payload - 3
  }

  lemma {:induction false} StartsAreStarts(data: Bytes, i: nat)
    requires i == 0 || !FourAt(data, i - 1)
    ensures forall s :: s in Starts(data, i) ==> IsStart(data, s) && i <= s.prefix
    decreases |data| - i
  {
    if i + 3 <= |data| {
      StartsAreStarts(data, if FourAt(data, i) then i + 4 else if ThreeAt(data, i) then i + 3 else i + 1);
    }
  }

  lemma {:induction false} EveryStartFound(data: Bytes, i: nat, s: Start)
    requires IsStart(data, s) && i <= s.prefix
    requires i == 0 || !FourAt(data, i - 1)
    ensures s in Starts(data, i)
    decreases |data| - i
  {
    if FourAt(data, i) {
      if s.prefix != i { EveryStartFound(data, i + 4, s); }
    } else if ThreeAt(data, i) {
      if s.prefix != i { EveryStartFound(data, i + 3, s); }
    } else {
      EveryStartFound(data, i + 1, s);
    }
  }

  lemma {:induction false} StartsInOrder(data: Bytes, i: nat)
    requires i == 0 || !FourAt(data, i - 1)
    ensures forall j, k :: 0 <= j < k < |Starts(data, i)| ==> Starts(data, i)[j].payload <= Starts(data, i)[k].prefix
    decreases |data| - i
  {
    if i + 3 <= |data| {
      var next := if FourAt(data, i) then i + 4 else if ThreeAt(data, i) then i + 3 else i + 1;
      StartsAreStarts(data, next);
      StartsInOrder(data, next);
    }
  }

  /** On any data: the scan finds every start code, nothing else, with its full length, in order. */
  lemma ScanIsExact(data: Bytes)
    ensures forall s :: s in Starts(data, 0) <==> IsStart(data, s)
    ensures forall j, k :: 0 <= j < k < |Starts(data, 0)| ==> Starts(data, 0)[j].payload <= Starts(data, 0)[k].prefix
  {
    StartsAreStarts(data, 0);
    StartsInOrder(data, 0);
    forall s | IsStart(data, s) ensures s in Starts(data, 0) {
      EveryStartFound(data, 0, s);
    }
  }

  // ----- writing a byte stream -----

  /** A NAL unit, written after a start code of four bytes or of three. */
  datatype Nal = Nal(long: bool, body: Bytes)

  function Code(nal: Nal): Bytes {
    if nal.long then [0, 0, 0, 1] else [0, 0, 1]
  }

  function Serialize(nals: seq<Nal>): Bytes {
    if nals == [] then [] else Code(nals[0]) + nals[0].body + Serialize(nals[1..])
  }

  ghost predicate Holds(data: Bytes, i: nat, bytes: Bytes) {
    i + |bytes| <= |data| && forall k :: 0 <= k < |bytes| ==> data[i + k] == bytes[k]
  }

  function PayloadAt(nals: seq<Nal>, i: nat): nat
    requires nals != []
  {
    i + |Code(nals[0])|
  }

  function NextAt(nals: seq<Nal>, i: nat): nat
    requires nals != []
  {
    PayloadAt(nals, i) + |nals[0].body|
  }

  predicate CodeAt(data: Bytes, i: nat, nal: Nal) {
    if nal.long then FourAt(data, i) else ThreeAt(data, i)
  }

  /** From `i` to its end, `data` holds the units as they are written. */
  ghost predicate Written(data: Bytes, i: nat, nals: seq<Nal>)
    decreases |nals|
  {
    if nals == [] then i == |data|
    else
      && CodeAt(data, i, nals[0]) && Holds(data, PayloadAt(nals, i), nals[0].body)
      && Written(data, NextAt(nals, i), nals[1..])
  }

  lemma {:induction false} SerializeWrites(before: Bytes, nals: seq<Nal>)
    ensures Written(before + Serialize(nals), |before|, nals)
    decreases |nals|
  {
    if nals != [] {
      var code, body := Code(nals[0]), nals[0].body;
      var data, rest := before + Serialize(nals), Serialize(nals[1..]);
      assert data == before + code + body + rest;
      SerializeWrites(before + code + body, nals[1..]);
      assert Holds(before + code + body + rest, |before + code|, body);
      assert CodeAt(before + code + body + rest, |before|, nals[0]);
    } else {
      assert before + Serialize(nals) == before;
    }
  }

  /** Where the writer put the start codes, when it began at `offset`. */
  ghost function Boundaries(nals: seq<Nal>, offset: nat): seq<Start> {
    if nals == [] then []
    else [Start(offset, PayloadAt(nals, offset))] + Boundaries(nals[1..], NextAt(nals, offset))
  }

  predicate EndsInZero(body: Bytes) {
    body != [] && body[|body| - 1] == 0
  }

  ghost predicate Quiet(body: Bytes) {
    forall p: nat :: !ThreeAt(body, p)
  }

  /** No body holds a start code, and none that ends in zero is followed by a short one. */
  ghost predicate Clean(nals: seq<Nal>) {
    nals != [] ==>
      && Quiet(nals[0].body)
      && (|nals| > 1 && EndsInZero(nals[0].body) ==> nals[1].long)
      && Clean(nals[1..])
  }

  /** Bytes without a start code are passed over. */
  lemma {:induction false} ScanPasses(data: Bytes, i: nat, j: nat)
    requires i <= j <= |data|
    requires forall p :: i <= p < j ==> !ThreeAt(data, p) && !FourAt(data, p)
    ensures Starts(data, i) == Starts(data, j)
    decreases j - i
  {
    if i < j && i + 3 <= |data| { ScanPasses(data, i + 1, j); }
  }

  /** A body is passed over, up to the start code or the end that follows it. */
  lemma BodyPassed(data: Bytes, i: nat, body: Bytes, nals: seq<Nal>)
    requires Holds(data, i, body) && Written(data, i + |body|, nals)
    requires Quiet(body) && (nals != [] && EndsInZero(body) ==> nals[0].long)
    ensures Starts(data, i) == Starts(data, i + |body|)
  {
    var j := i + |body|;
    forall p | i <= p < j ensures !ThreeAt(data, p) && !FourAt(data, p) {
      assert !ThreeAt(body, p - i) && !ThreeAt(body, p + 1 - i);
      assert data[p] == body[p - i] && data[j - 1] == body[|body| - 1];
      assert p + 1 < j ==> data[p + 1] == body[p + 1 - i];
      assert p + 2 < j ==> data[p + 2] == body[p + 2 - i];
      assert p + 3 < j ==> data[p + 3] == body[p + 3 - i];
    }
    ScanPasses(data, i, j);
  }

  lemma CodeRead(data: Bytes, i: nat, nal: Nal)
    requires CodeAt(data, i, nal)
    ensures Starts(data, i) == [Start(i, i + |Code(nal)|)] + Starts(data, i + |Code(nal)|)
  {
  }

  lemma {:induction false} CleanIsFound(data: Bytes, i: nat, nals: seq<Nal>)
    requires Written(data, i, nals) && Clean(nals)
    ensures Starts(data, i) == Boundaries(nals, i)
    decreases |nals|
  {
    if nals != [] {
      CodeRead(data, i, nals[0]);
      BodyPassed(data, PayloadAt(nals, i), nals[0].body, nals[1..]);
      CleanIsFound(data, NextAt(nals, i), nals[1..]);
    }
  }

  lemma {:induction false} BoundariesFollow(nals: seq<Nal>, offset: nat)
    ensures forall s :: s in Boundaries(nals, offset) ==> offset <= s.prefix
  {
    if nals != [] { BoundariesFollow(nals[1..], NextAt(nals, offset)); }
  }

  /** When the scan agrees with the writer, there is no start code between two boundaries. */
  lemma NoneBetween(data: Bytes, payload: nat, nals: seq<Nal>, next: nat)
    requires 0 < payload <= next && payload <= |data| && data[payload - 1] != 0
    requires Starts(data, payload) == Boundaries(nals, next)
    ensures forall s :: IsStart(data, s) && payload <= s.prefix ==> next <= s.prefix
  {
    BoundariesFollow(nals, next);
    forall s | IsStart(data, s) && payload <= s.prefix ensures next <= s.prefix {
      EveryStartFound(data, payload, s);
    }
  }

  lemma QuietBetween(data: Bytes, payload: nat, body: Bytes)
    requires 0 < payload && Holds(data, payload, body) && data[payload - 1] != 0
    requires forall s :: IsStart(data, s) && payload <= s.prefix ==> payload + |body| <= s.prefix
    ensures Quiet(body)
  {
    forall p: nat ensures !ThreeAt(body, p) {
      if ThreeAt(body, p) {
        var prefix := if data[payload + p - 1] == 0 then payload + p - 1 else payload + p;
        assert forall k :: p <= k < p + 3 ==> data[payload + k] == body[k];
        assert IsStart(data, Start(prefix, payload + p + 3));
      }
    }
  }

  /** A short start code that follows a zero swallows it. */
  lemma ShortAfterZero(data: Bytes, i: nat, body: Bytes, nal: Nal)
    requires Holds(data, i, body) && CodeAt(data, i + |body|, nal)
    ensures EndsInZero(body) && !nal.long ==> IsStart(data, Start(i + |body| - 1, i + |body| + 3))
  {
    assert body != [] ==> data[i + (|body| - 1)] == body[|body| - 1];
  }

  lemma {:induction false} FoundIsClean(data: Bytes, i: nat, nals: seq<Nal>)
    requires Written(data, i, nals) && Starts(data, i) == Boundaries(nals, i)
    ensures Clean(nals)
    decreases |nals|
  {
    if nals != [] {
      var payload, next, body, rest := PayloadAt(nals, i), NextAt(nals, i), nals[0].body, nals[1..];
      CodeRead(data, i, nals[0]);
      assert Starts(data, payload) == Boundaries(rest, next) by {
        assert Boundaries(nals, i)[1..] == Boundaries(rest, next);
      }
      assert data[payload - 1] == 1;
      NoneBetween(data, payload, rest, next);
      QuietBetween(data, payload, body);
      if rest != [] { ShortAfterZero(data, payload, body, rest[0]); }
      BodyPassed(data, payload, body, rest);
      FoundIsClean(data, next, rest);
    }
  }

  /** The scan returns the written boundaries exactly when the units are clean. */
  lemma ScanFindsBoundaries(nals: seq<Nal>)
    ensures Starts(Serialize(nals), 0) == Boundaries(nals, 0) <==> Clean(nals)
  {
    var data := Serialize(nals);
    SerializeWrites([], nals);
    assert [] + data == data;
    if Clean(nals) { CleanIsFound(data, 0, nals); }
    if Starts(data, 0) == Boundaries(nals, 0) { FoundIsClean(data, 0, nals); }
  }

  // ----- the set of NAL unit types -----

  function NalType(first: byte): nat {
    LowBits(first, 32)
  }

  /** The types of the units that follow the start codes of `data`. */
  ghost function TypesIn(data: Bytes): set<nat> {
    set s | s in Starts(data, 0) && s.payload < |data| :: NalType(data[s.payload])
  }

  method NalTypes(data: Bytes) returns (found: set<nat>)
    ensures found == TypesIn(data)
  {
    found := {};
    var i := 0;
    ghost var seen: seq<Start> := [];
    while i + 3 <= |data|
      invariant seen + Starts(data, i) == Starts(data, 0)
      invariant found == set s | s in seen && s.payload < |data| :: NalType(data[s.payload])
      decreases |data| - i
    {
      var start: nat;
      if FourAt(data, i) {
        start := i + 4;
      } else if ThreeAt(data, i) {
        start := i + 3;
      } else {
        i := i + 1;
        continue;
      }
      seen := seen + [Start(i, start)];
      i := start;
      if start < |data| {
        found := found + {NalType(data[start])};
      }
    }
  }

  /** On any data: a type is found exactly when the low five bits of a byte after a start code are that type. */
  lemma TypesAreExact(data: Bytes, t: nat)
    ensures t in TypesIn(data) <==> exists s :: IsStart(data, s) && s.payload < |data| && data[s.payload] % 32 == t
  {
    ScanIsExact(data);
  }

  ghost predicate NonEmpty(nals: seq<Nal>) {
    forall i :: 0 <= i < |nals| ==> nals[i].body != []
  }

  /** One start for each unit, and its first byte after it. */
  ghost predicate Leads(data: Bytes, starts: seq<Start>, nals: seq<Nal>) {
    |starts| == |nals| && forall k :: 0 <= k < |nals| ==> LeadsTo(data, starts[k], nals[k])
  }

  ghost predicate LeadsTo(data: Bytes, s: Start, nal: Nal) {
    s.payload < |data| && nal.body != [] && data[s.payload] == nal.body[0]
  }

  lemma {:induction false} BoundariesLead(data: Bytes, i: nat, nals: seq<Nal>)
    requires Written(data, i, nals) && NonEmpty(nals)
    ensures Leads(data, Boundaries(nals, i), nals)
    decreases |nals|
  {
    if nals != [] {
      assert data[PayloadAt(nals, i) + 0] == nals[0].body[0];
      BoundariesLead(data, NextAt(nals, i), nals[1..]);
    }
  }

  lemma LeadingTypes(data: Bytes, starts: seq<Start>, nals: seq<Nal>, t: nat)
    requires Leads(data, starts, nals)
    ensures (exists s :: s in starts && s.payload < |data| && NalType(data[s.payload]) == t)
            <==> exists nal :: nal in nals && NalType(nal.body[0]) == t
  {
    if s :| s in starts && s.payload < |data| && NalType(data[s.payload]) == t {
      var k :| 0 <= k < |starts| && starts[k] == s;
      assert LeadsTo(data, s, nals[k]) && nals[k] in nals;
    }
    if nal :| nal in nals && NalType(nal.body[0]) == t {
      var k :| 0 <= k < |nals| && nals[k] == nal;
      assert LeadsTo(data, starts[k], nal) && starts[k] in starts;
    }
  }

  /** The types found in a written stream are those of its units. */
  lemma TypesRoundTrip(nals: seq<Nal>, t: nat)
    requires Clean(nals) && NonEmpty(nals)
    ensures t in TypesIn(Serialize(nals)) <==> exists nal :: nal in nals && nal.body[0] % 32 == t
  {
    var data := Serialize(nals);
    SerializeWrites([], nals);
    assert [] + data == data;
    ScanFindsBoundaries(nals);
    BoundariesLead(data, 0, nals);
    LeadingTypes(data, Starts(data, 0), nals, t);
    assert forall nal :: nal in nals ==> NalType(nal.body[0]) == nal.body[0] % 32;
  }

  // ----- access units -----

  const DELIMITER := 9

  datatype SplitError = NotAnnexB | NoDelimiters

  /** Where the next unit begins, or the data ends. */
  function EndOf(data: Bytes, starts: seq<Start>): nat {
    if |starts| > 1 then starts[1].prefix else |data|
  }

  predicate Delimits(data: Bytes, starts: seq<Start>)
    requires starts != []
  {
    starts[0].payload < EndOf(data, starts) && starts[0].payload < |data| && NalType(data[starts[0].payload]) == DELIMITER
  }

  /** Where the delimiters begin, start code included. */
  function Delimiters(data: Bytes, starts: seq<Start>): seq<nat> {
    if starts == [] then []
    else if Delimits(data, starts) then [starts[0].prefix] + Delimiters(data, starts[1..])
    else Delimiters(data, starts[1..])
  }

  function Slice(data: Bytes, i: nat, j: nat): Bytes {
    if i <= j <= |data| then data[i..j] else []
  }

  function First(marks: seq<nat>, otherwise: nat): nat {
    if marks == [] then otherwise else marks[0]
  }

  /** The data from `open` to the first mark, from there to the next one, and so on to the end. */
  function CutFrom(data: Bytes, open: nat, marks: seq<nat>): seq<Bytes>
    decreases |marks|
  {
    [Slice(data, open, First(marks, |data|))] + if marks == [] then [] else CutFrom(data, marks[0], marks[1..])
  }

  function Cut(data: Bytes, marks: seq<nat>): seq<Bytes> {
    if marks == [] then [] else CutFrom(data, marks[0], marks[1..])
  }

  function Split(data: Bytes): Result<seq<Bytes>, SplitError> {
    var starts := Starts(data, 0);
    var marks := Delimiters(data, starts);
    if starts == [] then Err(NotAnnexB) else if marks == [] then Err(NoDelimiters) else Ok(Cut(data, marks))
  }

  ghost predicate Ordered(data: Bytes, starts: seq<Start>) {
    && (forall i :: 0 <= i < |starts| ==> starts[i].prefix < starts[i].payload <= |data|)
    && (forall i, j :: 0 <= i < j < |starts| ==> starts[i].payload <= starts[j].prefix)
  }

  lemma ScanInOrder(data: Bytes)
    ensures Ordered(data, Starts(data, 0))
  {
    ScanIsExact(data);
    forall i | 0 <= i < |Starts(data, 0)| ensures Starts(data, 0)[i].prefix < Starts(data, 0)[i].payload <= |data| {
      assert IsStart(data, Starts(data, 0)[i]);
    }
  }

  lemma DelimitersStep(data: Bytes, starts: seq<Start>, n: nat)
    requires n < |starts|
    ensures var rest := Delimiters(data, starts[n + 1..]);
            Delimiters(data, starts[n..]) == if Delimits(data, starts[n..]) then [starts[n].prefix] + rest else rest
  {
    assert starts[n..][1..] == starts[n + 1..];
  }

  lemma CutStep(data: Bytes, open: nat, mark: nat, marks: seq<nat>)
    requires open <= mark <= |data|
    ensures Cut(data, [mark] + marks) == CutFrom(data, mark, marks)
    ensures CutFrom(data, open, [mark] + marks) == [data[open..mark]] + CutFrom(data, mark, marks)
  {
    assert ([mark] + marks)[1..] == marks;
  }

  lemma CutEnd(data: Bytes, open: nat)
    requires open <= |data|
    ensures CutFrom(data, open, []) == [data[open..]]
  {
    assert data[open..|data|] == data[open..];
  }

  /** Closing the open unit at a mark moves one piece from what is to come to what is done. */
  lemma Closed(units: seq<Bytes>, data: Bytes, open: nat, mark: nat, marks: seq<nat>)
    requires open <= mark <= |data|
    ensures units + [data[open..mark]] + CutFrom(data, mark, marks) == units + CutFrom(data, open, [mark] + marks)
  {
    CutStep(data, open, mark, marks);
  }

  method AccessUnits(data: Bytes) returns (r: Result<seq<Bytes>, SplitError>)
    ensures r == Split(data)
  {
    var starts := FindStarts(data);
    if starts == [] { return Err(NotAnnexB); }
    ScanInOrder(data);
    ghost var marks := Delimiters(data, starts);
    var units: seq<Bytes> := [];
    var open: Option<nat> := None;
    var n := 0;
    assert starts[0..] == starts;
    while n < |starts|
      invariant n <= |starts|
      invariant open.None? ==> units == [] && Delimiters(data, starts[n..]) == marks
      invariant open.Some? ==> open.value < |data| && (n < |starts| ==> open.value < starts[n].prefix)
      invariant open.Some? ==> marks != [] && units + CutFrom(data, open.value, Delimiters(data, starts[n..])) == Cut(data, marks)
    {
      DelimitersStep(data, starts, n);
      ghost var left := Delimiters(data, starts[n + 1..]);
      var prefix, payload := starts[n].prefix, starts[n].payload;
      var end := if n + 1 < |starts| then starts[n + 1].prefix else |data|;
      if payload < end && NalType(data[payload]) == DELIMITER {
        if open.None? {
          CutStep(data, prefix, prefix, left);
        } else {
          Closed(units, data, open.value, prefix, left);
        }
        if open.Some? && prefix > open.value {
          units := units + [data[open.value..prefix]];
        }
        open := Some(prefix);
      }
      n := n + 1;
    }
    assert starts[n..] == [] && Delimiters(data, []) == [];
    if open.Some? { CutEnd(data, open.value); }
    if open.Some? && open.value < |data| {
      units := units + [data[open.value..]];
    }
    if units == [] { return Err(NoDelimiters); }
    r := Ok(units);
  }

  ghost predicate Increasing(open: nat, marks: seq<nat>, bound: nat)
    decreases |marks|
  {
    open < bound && (marks != [] ==> open < marks[0] && Increasing(marks[0], marks[1..], bound))
  }

  lemma {:induction false} CutCovers(data: Bytes, open: nat, marks: seq<nat>)
    requires Increasing(open, marks, |data|)
    ensures Concat(CutFrom(data, open, marks)) == data[open..]
    ensures forall u :: u in CutFrom(data, open, marks) ==> u != []
    decreases |marks|
  {
    var cut := CutFrom(data, open, marks);
    if marks == [] {
      CutEnd(data, open);
      assert Concat<byte>([]) == [] && data[open..] + [] == data[open..];
    } else {
      CutCovers(data, marks[0], marks[1..]);
      assert cut[1..] == CutFrom(data, marks[0], marks[1..]);
      assert data[open..marks[0]] + data[marks[0]..] == data[open..];
    }
  }

  lemma {:induction false} DelimitersIncrease(data: Bytes, starts: seq<Start>)
    requires Ordered(data, starts)
    ensures var marks := Delimiters(data, starts);
            marks != [] ==> starts[0].prefix <= marks[0] && Increasing(marks[0], marks[1..], |data|)
  {
    if starts != [] {
      DelimitersIncrease(data, starts[1..]);
    }
  }

  /** On any data: the access units are not empty, and together they are the data from its first delimiter on. */
  lemma UnitsCoverData(data: Bytes)
    requires Split(data).Ok?
    ensures var from := Delimiters(data, Starts(data, 0))[0];
            from < |data| && Concat(Split(data).value) == data[from..]
    ensures forall u :: u in Split(data).value ==> u != []
  {
    var marks := Delimiters(data, Starts(data, 0));
    ScanInOrder(data);
    DelimitersIncrease(data, Starts(data, 0));
    CutCovers(data, marks[0], marks[1..]);
  }

  /** A start code, and a unit of type 9 after it. */
  ghost predicate DelimiterStart(data: Bytes, s: Start) {
    IsStart(data, s) && s.payload < |data| && data[s.payload] % 32 == 9
  }

  /** The start code of a delimiter begins here. */
  ghost predicate DelimiterBegins(data: Bytes, m: nat) {
    exists s :: DelimiterStart(data, s) && s.prefix == m
  }

  /** The first byte of a delimiter is not zero, so no start code begins there. */
  lemma DelimitsExactly(data: Bytes, starts: seq<Start>)
    requires starts != [] && Ordered(data, starts) && forall s :: s in starts ==> IsStart(data, s)
    ensures Delimits(data, starts) <==> DelimiterStart(data, starts[0])
  {
    if |starts| > 1 { assert IsStart(data, starts[1]) && data[starts[1].prefix] == 0; }
  }

  lemma {:induction false} DelimitersAreExact(data: Bytes, starts: seq<Start>, m: nat)
    requires Ordered(data, starts) && forall s :: s in starts ==> IsStart(data, s)
    ensures m in Delimiters(data, starts) <==> exists s :: s in starts && s.prefix == m && DelimiterStart(data, s)
  {
    if starts != [] {
      DelimitsExactly(data, starts);
      DelimitersAreExact(data, starts[1..], m);
      assert forall s :: s in starts <==> s == starts[0] || s in starts[1..];
    }
  }

  ghost predicate UnitAt(data: Bytes, unit: Bytes, from: nat, to: nat) {
    from <= to <= |data| && unit == data[from..to]
  }

  ghost function MarkAfter(data: Bytes, marks: seq<nat>, i: nat): nat {
    if i + 1 < |marks| then marks[i + 1] else |data|
  }

  lemma {:induction false} CutAt(data: Bytes, open: nat, marks: seq<nat>, i: nat)
    requires Increasing(open, marks, |data|) && i <= |marks|
    ensures var all := [open] + marks;
            && |CutFrom(data, open, marks)| == |all|
            && UnitAt(data, CutFrom(data, open, marks)[i], all[i], MarkAfter(data, all, i))
    decreases |marks|
  {
    if marks == [] {
    } else if i == 0 {
      CutAt(data, marks[0], marks[1..], 0);
    } else {
      CutAt(data, marks[0], marks[1..], i - 1);
      assert [marks[0]] + marks[1..] == marks;
    }
  }

  lemma {:induction false} IncreasingInOrder(open: nat, marks: seq<nat>, bound: nat)
    requires Increasing(open, marks, bound)
    ensures forall i, j :: 0 <= i < j < |[open] + marks| ==> ([open] + marks)[i] < ([open] + marks)[j]
    decreases |marks|
  {
    if marks != [] {
      IncreasingInOrder(marks[0], marks[1..], bound);
      assert [marks[0]] + marks[1..] == marks;
    }
  }

  /** The data is cut into these units at these places, which are where its delimiters begin, in order. */
  ghost predicate CutAtDelimiters(data: Bytes, units: seq<Bytes>, marks: seq<nat>) {
    && |units| == |marks|
    && (forall m :: m in marks <==> DelimiterBegins(data, m))
    && (forall i, j :: 0 <= i < j < |marks| ==> marks[i] < marks[j])
    && (forall i :: 0 <= i < |marks| ==> UnitAt(data, units[i], marks[i], MarkAfter(data, marks, i)))
  }

  /**
   On any data: splitting fails exactly when there is no start code, or no delimiter; otherwise each unit runs from the start
   code of one delimiter to that of the next, or to the end.
   */
  lemma SplitIsExact(data: Bytes)
    ensures Split(data) == Err(NotAnnexB) <==> !exists s :: IsStart(data, s)
    ensures Split(data).Ok? <==> exists s :: DelimiterStart(data, s)
    ensures Split(data).Ok? ==> exists marks :: CutAtDelimiters(data, Split(data).value, marks)
  {
    var starts := Starts(data, 0);
    var marks := Delimiters(data, starts);
    ScanIsExact(data);
    ScanInOrder(data);
    assert starts == [] <==> !exists s :: IsStart(data, s) by {
      assert starts != [] ==> starts[0] in starts;
    }
    forall m ensures m in marks <==> DelimiterBegins(data, m) {
      DelimitersAreExact(data, starts, m);
    }
    assert marks != [] ==> DelimiterBegins(data, marks[0]);
    if s :| DelimiterStart(data, s) { assert DelimiterBegins(data, s.prefix); }
    if marks != [] {
      DelimitersIncrease(data, starts);
      CutIsAtDelimiters(data, marks);
    }
  }

  lemma CutIsAtDelimiters(data: Bytes, marks: seq<nat>)
    requires marks != [] && Increasing(marks[0], marks[1..], |data|)
    requires forall m :: m in marks <==> DelimiterBegins(data, m)
    ensures CutAtDelimiters(data, Cut(data, marks), marks)
  {
    assert [marks[0]] + marks[1..] == marks;
    IncreasingInOrder(marks[0], marks[1..], |data|);
    CutAt(data, marks[0], marks[1..], 0);
    forall i | 0 <= i < |marks|
      ensures UnitAt(data, Cut(data, marks)[i], marks[i], MarkAfter(data, marks, i))
    {
      CutAt(data, marks[0], marks[1..], i);
    }
  }

  // ----- splitting a written stream -----

  predicate IsDelimiter(nal: Nal) {
    nal.body != [] && nal.body[0] % 32 == 9
  }

  /** The units before the first delimiter. */
  ghost function Lead(nals: seq<Nal>): seq<Nal> {
    if nals == [] || IsDelimiter(nals[0]) then [] else [nals[0]] + Lead(nals[1..])
  }

  /** Each delimiter with the units up to the next one. */
  ghost function Groups(nals: seq<Nal>): seq<seq<Nal>> {
    if nals == [] then []
    else if IsDelimiter(nals[0]) then [[nals[0]] + Lead(nals[1..])] + Groups(nals[1..])
    else Groups(nals[1..])
  }

  ghost predicate StartsWithOnlyDelimiter(group: seq<Nal>) {
    group != [] && IsDelimiter(group[0]) && forall i :: 0 < i < |group| ==> !IsDelimiter(group[i])
  }

  lemma {:induction false} LeadHasNone(nals: seq<Nal>)
    ensures forall i :: 0 <= i < |Lead(nals)| ==> !IsDelimiter(Lead(nals)[i])
  {
    if nals != [] { LeadHasNone(nals[1..]); }
  }

  /** The groups partition the units from the first delimiter on. */
  lemma {:induction false} GroupsPartition(nals: seq<Nal>)
    ensures Lead(nals) + Concat(Groups(nals)) == nals
    ensures forall g :: g in Groups(nals) ==> StartsWithOnlyDelimiter(g)
  {
    if nals != [] {
      GroupsPartition(nals[1..]);
      LeadHasNone(nals[1..]);
      if IsDelimiter(nals[0]) {
        assert Groups(nals)[1..] == Groups(nals[1..]);
      }
    }
  }

  lemma {:induction false} LeadIsClean(nals: seq<Nal>)
    requires Clean(nals)
    ensures Clean(Lead(nals)) && (Lead(nals) != [] ==> Lead(nals)[0] == nals[0])
  {
    if nals != [] && !IsDelimiter(nals[0]) {
      LeadIsClean(nals[1..]);
      assert Lead(nals)[1..] == Lead(nals[1..]);
    }
  }

  /** So a group written on its own is scanned as it was in the stream. */
  lemma {:induction false} GroupsAreClean(nals: seq<Nal>)
    requires Clean(nals)
    ensures forall g :: g in Groups(nals) ==> Clean(g)
  {
    if nals != [] {
      GroupsAreClean(nals[1..]);
      LeadIsClean(nals[1..]);
      var g := [nals[0]] + Lead(nals[1..]);
      assert g[1..] == Lead(nals[1..]);
    }
  }

  ghost function SerializeEach(groups: seq<seq<Nal>>): seq<Bytes> {
    if groups == [] then [] else [Serialize(groups[0])] + SerializeEach(groups[1..])
  }

  ghost function Marks(nals: seq<Nal>, i: nat): seq<nat> {
    if nals == [] then []
    else if IsDelimiter(nals[0]) then [i] + Marks(nals[1..], NextAt(nals, i))
    else Marks(nals[1..], NextAt(nals, i))
  }

  lemma {:induction false} DelimitersFound(data: Bytes, i: nat, nals: seq<Nal>)
    requires Written(data, i, nals) && NonEmpty(nals)
    ensures Delimiters(data, Boundaries(nals, i)) == Marks(nals, i)
    decreases |nals|
  {
    if nals != [] {
      var starts := Boundaries(nals, i);
      DelimitersFound(data, NextAt(nals, i), nals[1..]);
      assert starts[1..] == Boundaries(nals[1..], NextAt(nals, i));
      assert data[PayloadAt(nals, i) + 0] == nals[0].body[0];
      WrittenFits(data, NextAt(nals, i), nals[1..]);
      assert EndOf(data, starts) == NextAt(nals, i);
    }
  }

  lemma WrittenFits(data: Bytes, i: nat, nals: seq<Nal>)
    requires Written(data, i, nals)
    ensures i <= |data| && (nals == [] ==> i == |data|)
  {
  }

  lemma Slices(data: Bytes, i: nat, j: nat, k: nat, end: nat)
    requires i <= j <= k <= end <= |data|
    ensures data[i..end] == data[i..j] + data[j..k] + data[k..end]
  {
  }

  lemma CodeSlice(data: Bytes, i: nat, nal: Nal)
    requires CodeAt(data, i, nal)
    ensures data[i..i + |Code(nal)|] == Code(nal)
  {
  }

  lemma BodySlice(data: Bytes, i: nat, body: Bytes)
    requires Holds(data, i, body)
    ensures data[i..i + |body|] == body
  {
    assert forall k :: 0 <= k < |body| ==> data[i + k] == body[k];
  }

  lemma UnitSlice(data: Bytes, i: nat, nals: seq<Nal>, end: nat)
    requires nals != [] && Written(data, i, nals) && NextAt(nals, i) <= end <= |data|
    ensures data[i..end] == Code(nals[0]) + nals[0].body + data[NextAt(nals, i)..end]
  {
    CodeSlice(data, i, nals[0]);
    BodySlice(data, PayloadAt(nals, i), nals[0].body);
    Slices(data, i, PayloadAt(nals, i), NextAt(nals, i), end);
  }

  /** What lies before the first delimiter, or the end, is the lead. */
  lemma {:induction false} LeadSlice(data: Bytes, i: nat, nals: seq<Nal>)
    requires Written(data, i, nals)
    ensures var end := First(Marks(nals, i), |data|);
            i <= end <= |data| && data[i..end] == Serialize(Lead(nals))
    decreases |nals|
  {
    WrittenFits(data, i, nals);
    if nals != [] && !IsDelimiter(nals[0]) {
      var end := First(Marks(nals, i), |data|);
      LeadSlice(data, NextAt(nals, i), nals[1..]);
      UnitSlice(data, i, nals, end);
      assert Lead(nals)[1..] == Lead(nals[1..]);
    }
  }

  lemma {:induction false} CutIsGroups(data: Bytes, i: nat, nals: seq<Nal>)
    requires Written(data, i, nals)
    ensures Cut(data, Marks(nals, i)) == SerializeEach(Groups(nals))
    decreases |nals|
  {
    if nals != [] {
      var next, rest := NextAt(nals, i), nals[1..];
      CutIsGroups(data, next, rest);
      if IsDelimiter(nals[0]) {
        FirstGroup(data, i, nals);
      }
    }
  }

  lemma FirstGroup(data: Bytes, i: nat, nals: seq<Nal>)
    requires nals != [] && Written(data, i, nals) && IsDelimiter(nals[0])
    requires Cut(data, Marks(nals[1..], NextAt(nals, i))) == SerializeEach(Groups(nals[1..]))
    ensures Cut(data, Marks(nals, i)) == SerializeEach(Groups(nals))
  {
    var next, rest := NextAt(nals, i), nals[1..];
    var group, marks := [nals[0]] + Lead(rest), Marks(rest, next);
    var end := First(marks, |data|);
    LeadSlice(data, next, rest);
    UnitSlice(data, i, nals, end);
    assert group[1..] == Lead(rest);
    assert data[i..end] == Serialize(group);
    assert Groups(nals)[1..] == Groups(rest);
    assert Marks(nals, i)[1..] == marks;
    assert CutFrom(data, i, marks) == [data[i..end]] + Cut(data, marks);
  }

  /** A written stream splits into its groups: the errors are an empty stream and a stream without a delimiter. */
  lemma SplitRoundTrip(nals: seq<Nal>)
    requires Clean(nals) && NonEmpty(nals)
    ensures Split(Serialize(nals))
            == if nals == [] then Err(NotAnnexB)
               else if Groups(nals) == [] then Err(NoDelimiters)
               else Ok(SerializeEach(Groups(nals)))
  {
    var data := Serialize(nals);
    SerializeWrites([], nals);
    assert [] + data == data;
    ScanFindsBoundaries(nals);
    DelimitersFound(data, 0, nals);
    CutIsGroups(data, 0, nals);
  }

  /** When the stream begins with a delimiter, nothing is lost. */
  lemma DelimitedStreamKept(nals: seq<Nal>)
    requires Clean(nals) && NonEmpty(nals) && nals != [] && IsDelimiter(nals[0])
    ensures Split(Serialize(nals)).Ok? && Concat(Split(Serialize(nals)).value) == Serialize(nals)
    ensures Concat(Groups(nals)) == nals
  {
    var data := Serialize(nals);
    SplitRoundTrip(nals);
    UnitsCoverData(data);
    GroupsPartition(nals);
    SerializeWrites([], nals);
    assert [] + data == data;
    ScanFindsBoundaries(nals);
    DelimitersFound(data, 0, nals);
    assert data[0..] == data;
  }
}
