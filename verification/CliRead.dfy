/**
 The command line's `read`: the lines of a window, and `--unread`, which resumes after a saved
 cursor. The main results: a window holds exactly the newest lines it promises, and over any run of
 reads of changing transcripts no line is returned twice and none above the cursor is passed over
 unflagged.

 One network is modelled. Times are nanoseconds, before or after the epoch.
 */
module CliRead {
  import Casemapping
  import opened Sorting
  import opened Wrappers

  const CLI_LINE_CAP := 100
  const DEFAULT_LAST := 50
  const MILLISECOND := 1_000_000

  datatype Kind = Message | Notice | Action | Event | ErrorLine | Whois

  /** One transcript row. */
  datatype Entry = Entry(author: string, time: int, body: string, kind: Kind, msgid: string, sequence: int)

  datatype Conversation = Conversation(key: string, target: string, messages: seq<Entry>)

  /** One line a read returns. */
  datatype Line = Line(target: string, entry: Entry)
  {
    function Place(): Cursor {
      Cursor(entry.time, entry.msgid, entry.sequence)
    }
  }

  datatype Cursor = Cursor(time: int, msgid: string, sequence: int)

  datatype Window = Last(count: nat) | Since(cutoff: int) | After(cursor: Cursor)

  datatype Messages = Unknown | Messages(lines: seq<Line>, truncated: bool)

  /** Whole milliseconds, rounded down on both sides of the epoch. */
  function Millis(time: int): int {
    time / MILLISECOND
  }

  /** The order of lines: by whole millisecond, ties by message id, and those by sequence. */
  predicate NotAfter(a: Cursor, b: Cursor) {
    || Millis(a.time) < Millis(b.time)
    || (Millis(a.time) == Millis(b.time) && a.msgid != b.msgid && LexLeq(a.msgid, b.msgid))
    || (Millis(a.time) == Millis(b.time) && a.msgid == b.msgid && a.sequence <= b.sequence)
  }

  predicate Above(a: Cursor, b: Cursor) {
    !NotAfter(a, b)
  }

  function ChatOrder(): (Line, Line) -> bool {
    (a: Line, b: Line) => NotAfter(a.Place(), b.Place())
  }

  predicate Shown(kind: Kind) {
    kind.Message? || kind.Notice? || kind.Action?
  }

  // ----- what a read returns, as functions -----

  function Collect(target: string, messages: seq<Entry>): seq<Line> {
    if messages == [] then []
    else
      var n := |messages| - 1;
      Collect(target, messages[..n]) + if Shown(messages[n].kind) then [Line(target, messages[n])] else []
  }

  function CollectAll(conversations: seq<Conversation>): seq<Line> {
    if conversations == [] then []
    else
      var n := |conversations| - 1;
      CollectAll(conversations[..n]) + Collect(conversations[n].target, conversations[n].messages)
  }

  predicate InWindow(w: Window, line: Line) {
    match w
    case Last(_) => true
    case Since(cutoff) => Millis(line.entry.time) >= Millis(cutoff)
    case After(cursor) => Above(line.Place(), cursor)
  }

  function Keep(w: Window, lines: seq<Line>): seq<Line> {
    if lines == [] then []
    else
      var n := |lines| - 1;
      Keep(w, lines[..n]) + if InWindow(w, lines[n]) then [lines[n]] else []
  }

  function Cap(w: Window): nat {
    if w.Last? then if w.count == 0 then 1 else w.count else CLI_LINE_CAP
  }

  /** The last `cap` lines in chat order. */
  function Newest(lines: seq<Line>, cap: nat): seq<Line> {
    var sorted := Sort(lines, ChatOrder());
    if |sorted| > cap then sorted[|sorted| - cap..] else sorted
  }

  /** The first conversation of a key. */
  function Find(conversations: seq<Conversation>, key: string): (i: nat)
    ensures i <= |conversations|
    ensures i < |conversations| ==> conversations[i].key == key
  {
    if conversations == [] || conversations[0].key == key then 0 else 1 + Find(conversations[1..], key)
  }

  /** The lines a target names: every conversation's for an empty one. */
  function Candidates(conversations: seq<Conversation>, fold: string -> string, target: string): Option<seq<Line>> {
    if target == "" then Some(CollectAll(conversations))
    else
      var i := Find(conversations, fold(target));
      if i == |conversations| then None
      else Some(Collect(conversations[i].target, conversations[i].messages))
  }

  function Answer(lines: seq<Line>, w: Window): Messages {
    var kept := Keep(w, lines);
    Messages(Newest(kept, Cap(w)), !w.Last? && |Sort(kept, ChatOrder())| > Cap(w))
  }

  function Read(conversations: seq<Conversation>, fold: string -> string, target: string, w: Window): Messages {
    match Candidates(conversations, fold, target)
    case None => Unknown
    case Some(lines) => Answer(lines, w)
  }

  // ----- the read, building its lines in loops -----

  method CollectLines(target: string, messages: seq<Entry>, lines: seq<Line>) returns (out: seq<Line>)
    ensures out == lines + Collect(target, messages)
  {
    out := lines;
    var i := 0;
    while i < |messages|
      invariant 0 <= i <= |messages|
      invariant out == lines + Collect(target, messages[..i])
    {
      assert messages[..i + 1][..i] == messages[..i];
      if Shown(messages[i].kind) {
        out := out + [Line(target, messages[i])];
      }
      i := i + 1;
    }
    assert messages[..i] == messages;
  }

  method Retain(w: Window, lines: seq<Line>) returns (out: seq<Line>)
    ensures out == Keep(w, lines)
  {
    out := [];
    var i := 0;
    while i < |lines|
      invariant 0 <= i <= |lines|
      invariant out == Keep(w, lines[..i])
    {
      assert lines[..i + 1][..i] == lines[..i];
      if InWindow(w, lines[i]) {
        out := out + [lines[i]];
      }
      i := i + 1;
    }
    assert lines[..i] == lines;
  }

  method SortAndCap(lines: seq<Line>, cap: nat) returns (kept: seq<Line>, dropped: bool)
    ensures kept == Newest(lines, cap)
    ensures dropped == (|Sort(lines, ChatOrder())| > cap)
  {
    kept := Sort(lines, ChatOrder());
    if |kept| > cap {
      var older := |kept| - cap;
      kept := kept[older..];
      return kept, true;
    }
    return kept, false;
  }

  method CliMessages(conversations: seq<Conversation>, fold: string -> string, target: string, window: Window)
    returns (answer: Messages)
    ensures answer == Read(conversations, fold, target, window)
  {
    var lines: seq<Line> := [];
    if target == "" {
      var i := 0;
      while i < |conversations|
        invariant 0 <= i <= |conversations|
        invariant lines == CollectAll(conversations[..i])
      {
        assert conversations[..i + 1][..i] == conversations[..i];
        lines := CollectLines(conversations[i].target, conversations[i].messages, lines);
        i := i + 1;
      }
      assert conversations[..i] == conversations;
    } else {
      var i := Find(conversations, fold(target));
      if i == |conversations| {
        return Unknown;
      }
      lines := CollectLines(conversations[i].target, conversations[i].messages, lines);
      assert lines == Collect(conversations[i].target, conversations[i].messages);
    }
    assert Candidates(conversations, fold, target) == Some(lines);
    lines := Retain(window, lines);
    var kept, dropped := SortAndCap(lines, Cap(window));
    return Messages(kept, dropped && !window.Last?);
  }

  // ----- the saved cursors -----

  /** Which file a target's cursor is in: the network's own, or the one of the folded target. Without
      a known case mapping the fold is ASCII. */
  datatype File = WholeNetwork | Target(folded: string)

  function FileOf(mapping: Casemapping.Kind, known: bool, target: string): File {
    if target == "" then WholeNetwork
    else Target(Casemapping.Normalize(if known then mapping else Casemapping.Ascii, target))
  }

  /** A cursor as its file keeps it, to the millisecond. */
  function Stored(c: Cursor): Cursor {
    c.(time := Millis(c.time) * MILLISECOND)
  }

  datatype Wanted = WantsLast(count: nat) | WantsSince(cutoff: int) | WantsUnread

  /** What one `read` asks, and the transcript and answers it meets. */
  datatype Request = Request(
    conversations: seq<Conversation>,
    fold: string -> string,
    target: string,
    mapping: Casemapping.Kind,
    known: bool,
    wanted: Wanted,
    saves: bool)
  {
    function File(): File {
      FileOf(mapping, known, target)
    }
  }

  function WindowOf(cursors: map<File, Cursor>, q: Request): Window {
    match q.wanted
    case WantsLast(count) => Last(count)
    case WantsSince(cutoff) => Since(cutoff)
    case WantsUnread => if q.File() in cursors then After(cursors[q.File()]) else Last(DEFAULT_LAST)
  }

  function Answered(cursors: map<File, Cursor>, q: Request): Messages {
    Read(q.conversations, q.fold, q.target, WindowOf(cursors, q))
  }

  /** Whether a read moves the cursor on. */
  predicate Advances(cursors: map<File, Cursor>, q: Request) {
    var answer := Answered(cursors, q);
    q.wanted.WantsUnread? && q.saves && answer.Messages? && answer.lines != []
  }

  function Advanced(cursors: map<File, Cursor>, q: Request): map<File, Cursor> {
    if Advances(cursors, q) then
      var lines := Answered(cursors, q).lines;
      cursors[q.File() := Stored(lines[|lines| - 1].Place())]
    else cursors
  }

  class CliHandler {
    var cursors: map<File, Cursor>

    constructor ()
      ensures cursors == map[]
    {
      cursors := map[];
    }

    method ReadLines(q: Request) returns (answer: Messages)
      modifies this
      ensures answer == Answered(old(cursors), q)
      ensures cursors == Advanced(old(cursors), q)
    {
      hide Read;
      var file := q.File();
      var window := match q.wanted
        case WantsLast(count) => Last(count)
        case WantsSince(cutoff) => Since(cutoff)
        case WantsUnread => if file in cursors then After(cursors[file]) else Last(DEFAULT_LAST);
      answer := CliMessages(q.conversations, q.fold, q.target, window);
      if answer == Unknown {
        return;
      }
      if q.wanted.WantsUnread? && answer.lines != [] && q.saves {
        cursors := cursors[file := Stored(answer.lines[|answer.lines| - 1].Place())];
      }
    }
  }

  // ----- a window holds what it promises -----

  lemma CursorsAreOrdered(a: Cursor, b: Cursor, c: Cursor)
    ensures NotAfter(a, b) || NotAfter(b, a)
    ensures NotAfter(a, b) && NotAfter(b, c) ==> NotAfter(a, c)
    ensures NotAfter(a, b) && NotAfter(b, a) ==> Stored(a) == Stored(b)
  {
    LexTotal(a.msgid, b.msgid);
    LexTotal(a.msgid, c.msgid);
    LexTotal(b.msgid, c.msgid);
    if LexLeq(a.msgid, b.msgid) && LexLeq(b.msgid, c.msgid) {
      LexTransitive(a.msgid, b.msgid, c.msgid);
    }
  }

  lemma ChatOrderIsTotal()
    ensures TotalOrder(ChatOrder())
  {
    forall a: Line, b: Line
      ensures ChatOrder()(a, b) || ChatOrder()(b, a)
    {
      CursorsAreOrdered(a.Place(), b.Place(), b.Place());
    }
    forall a: Line, b: Line, c: Line | ChatOrder()(a, b) && ChatOrder()(b, c)
      ensures ChatOrder()(a, c)
    {
      CursorsAreOrdered(a.Place(), b.Place(), c.Place());
    }
  }

  /** Keeping a cursor to the millisecond changes no comparison with it. */
  lemma StoredCursorsCompareAlike(c: Cursor, other: Cursor)
    ensures NotAfter(Stored(c), other) == NotAfter(c, other)
    ensures NotAfter(other, Stored(c)) == NotAfter(other, c)
    ensures Stored(Stored(c)) == Stored(c)
  {
  }

  lemma {:induction false} KeepKeeps(w: Window, lines: seq<Line>, line: Line)
    ensures multiset(Keep(w, lines))[line] == if InWindow(w, line) then multiset(lines)[line] else 0
  {
    hide InWindow;
    if lines != [] {
      var n := |lines| - 1;
      KeepKeeps(w, lines[..n], line);
      assert lines == lines[..n] + [lines[n]];
    }
  }

  /** The newest lines of a list: in order, as many as the cap allows, and with every line left out no
      later than any line kept. */
  lemma NewestAreNewest(lines: seq<Line>, cap: nat) returns (older: seq<Line>)
    ensures older + Newest(lines, cap) == Sort(lines, ChatOrder())
    ensures multiset(older) + multiset(Newest(lines, cap)) == multiset(lines)
    ensures Sorted(Newest(lines, cap), ChatOrder())
    ensures |Newest(lines, cap)| == if |lines| > cap then cap else |lines|
    ensures forall a, b :: a in older && b in Newest(lines, cap) ==> NotAfter(a.Place(), b.Place())
  {
    ChatOrderIsTotal();
    SortSorts(lines, ChatOrder());
    hide NotAfter, Sort;
    var sorted := Sort(lines, ChatOrder());
    var cut := if |sorted| > cap then |sorted| - cap else 0;
    older := sorted[..cut];
    SplitSorted(sorted, cut, ChatOrder());
    assert sorted[0..] == sorted;
    forall a, b | a in older && b in sorted[cut..]
      ensures NotAfter(a.Place(), b.Place())
    {
      assert ChatOrder()(a, b);
    }
  }

  lemma LinesAmong(left: seq<Line>, right: seq<Line>, whole: seq<Line>, line: Line)
    requires multiset(left) + multiset(right) == multiset(whole)
    ensures line in whole <==> line in left || line in right
  {
    assert line in multiset(whole) <==> line in multiset(left) || line in multiset(right);
  }

  /** A read returns the newest lines of its window in chat order, never more than its cap. A line of
      the window is left out only for the cap, when every line returned is as new, and outside `Last`
      the read says so exactly when one is. */
  lemma WindowIsNewest(lines: seq<Line>, w: Window)
    ensures var answer := Answer(lines, w);
            && Sorted(answer.lines, ChatOrder())
            && |answer.lines| <= Cap(w)
            && (forall line :: line in answer.lines ==> line in lines && InWindow(w, line))
            && (!w.Last? ==> (answer.truncated <==> |Keep(w, lines)| > CLI_LINE_CAP))
            && (w.Last? ==> !answer.truncated)
            && (forall line :: line in lines && InWindow(w, line) && line !in answer.lines ==>
                  && |answer.lines| == Cap(w) && (w.Last? || answer.truncated)
                  && forall kept :: kept in answer.lines ==> NotAfter(line.Place(), kept.Place()))
  {
    var kept := Keep(w, lines);
    var newest := Newest(kept, Cap(w));
    var older := NewestAreNewest(kept, Cap(w));
    ChatOrderIsTotal();
    SortSorts(kept, ChatOrder());
    hide Newest;
    forall line
      ensures line in kept <==> line in lines && InWindow(w, line)
      ensures line in kept <==> line in older || line in newest
    {
      KeepKeeps(w, lines, line);
      assert line in kept <==> multiset(kept)[line] > 0;
      assert line in lines <==> multiset(lines)[line] > 0;
      LinesAmong(older, newest, kept, line);
    }
  }

  // ----- no line twice, and none passed over -----

  /** `returned` holds, for each cursor file, the places of the lines that unread reads returned when
      they saved their cursor. */
  datatype System = System(cursors: map<File, Cursor>, returned: map<File, set<Cursor>>)
  {
    function Returned(f: File): set<Cursor> {
      if f in returned then returned[f] else {}
    }
  }

  function Places(lines: seq<Line>): set<Cursor> {
    set line | line in lines :: line.Place()
  }

  function Next(s: System, q: Request): System {
    System(
      Advanced(s.cursors, q),
      if Advances(s.cursors, q)
      then s.returned[q.File() := s.Returned(q.File()) + Places(Answered(s.cursors, q).lines)]
      else s.returned)
  }

  /** Each cursor stands at or past every line it was saved behind. */
  predicate Behind(s: System) {
    forall f :: f in s.returned ==>
      f in s.cursors && forall c :: c in s.returned[f] ==> NotAfter(c, s.cursors[f])
  }

  /** An unread read returns only lines past all those returned before, and keeps the cursor past
      everything. */
  lemma UnreadMovesOn(s: System, q: Request)
    requires Behind(s)
    ensures Behind(Next(s, q))
    ensures q.wanted.WantsUnread? && Answered(s.cursors, q).Messages? ==>
              forall line, c :: line in Answered(s.cursors, q).lines && c in s.Returned(q.File()) ==> Above(line.Place(), c)
  {
    var f := q.File();
    var answer := Answered(s.cursors, q);
    if q.wanted.WantsUnread? && answer.Messages? {
      var lines := Candidates(q.conversations, q.fold, q.target).value;
      WindowIsNewest(lines, WindowOf(s.cursors, q));
      hide Answered, Candidates, Answer, NotAfter;
      forall line, c | line in answer.lines && c in s.Returned(f)
        ensures Above(line.Place(), c)
      {
        CursorsAreOrdered(line.Place(), c, s.cursors[f]);
      }
      if Advances(s.cursors, q) {
        AdvancedIsPast(s, q);
      }
    }
  }

  lemma AdvancedIsPast(s: System, q: Request)
    requires Behind(s) && Advances(s.cursors, q)
    requires Sorted(Answered(s.cursors, q).lines, ChatOrder())
    requires forall line, c :: line in Answered(s.cursors, q).lines && c in s.Returned(q.File()) ==> Above(line.Place(), c)
    ensures Behind(Next(s, q))
  {
    hide Answered, NotAfter;
    var f := q.File();
    var lines := Answered(s.cursors, q).lines;
    var last := lines[|lines| - 1];
    var cursor := Stored(last.Place());
    forall c | c in s.Returned(f) + Places(lines)
      ensures NotAfter(c, cursor)
    {
      StoredCursorsCompareAlike(last.Place(), c);
      CursorsAreOrdered(c, last.Place(), c);
      if c !in s.Returned(f) {
        var line :| line in lines && line.Place() == c;
        var i :| 0 <= i < |lines| && lines[i] == line;
        assert i < |lines| - 1 ==> ChatOrder()(lines[i], last);
      }
    }
  }

  function Run(s: System, requests: seq<Request>): System {
    if requests == [] then s else Next(Run(s, requests[..|requests| - 1]), requests[|requests| - 1])
  }

  lemma {:induction false} RunStaysBehind(requests: seq<Request>)
    ensures Behind(Run(System(map[], map[]), requests))
  {
    if requests != [] {
      RunStaysBehind(requests[..|requests| - 1]);
      UnreadMovesOn(Run(System(map[], map[]), requests[..|requests| - 1]), requests[|requests| - 1]);
    }
  }

  /** The lines of a target past the cursor its read resumes from. */
  function PastCursor(s: System, q: Request): set<Line>
    requires q.File() in s.cursors && Candidates(q.conversations, q.fold, q.target).Some?
  {
    set line | line in Candidates(q.conversations, q.fold, q.target).value && Above(line.Place(), s.cursors[q.File()])
  }

  /** Over any reads of any changing transcripts: an unread read returns only lines past every line
      that earlier reads of its target returned and saved behind. Every line past the cursor it
      resumes from is returned, or the read is flagged and returns the newest hundred. */
  lemma UnreadNeverRepeatsOrSkips(requests: seq<Request>, q: Request)
    requires q.wanted.WantsUnread? && Candidates(q.conversations, q.fold, q.target).Some?
    ensures var s := Run(System(map[], map[]), requests);
            var answer := Answered(s.cursors, q);
            && (forall line, c :: line in answer.lines && c in s.Returned(q.File()) ==> Above(line.Place(), c))
            && (q.File() in s.cursors ==>
                  forall line :: line in PastCursor(s, q) && line !in answer.lines ==>
                    && answer.truncated && |answer.lines| == CLI_LINE_CAP
                    && forall kept :: kept in answer.lines ==> NotAfter(line.Place(), kept.Place()))
  {
    var s := Run(System(map[], map[]), requests);
    RunStaysBehind(requests);
    UnreadMovesOn(s, q);
    WindowIsNewest(Candidates(q.conversations, q.fold, q.target).value, WindowOf(s.cursors, q));
    hide Run, Behind, Answer, NotAfter, Candidates;
  }

  // ----- one file for one name -----

  type Byte = b: nat | b < 256

  predicate Plain(b: Byte) {
    || 48 <= b <= 57 || 65 <= b <= 90 || 97 <= b <= 122
    || b == 45 || b == 95
  }

  function HexDigit(n: nat): char
    requires n < 16
  {
    "0123456789ABCDEF"[n]
  }

  function EncodedByte(b: Byte): string {
    if Plain(b) then [b as char] else ['%', HexDigit(b / 16), HexDigit(b % 16)]
  }

  function Encoded(text: seq<Byte>): string {
    if text == [] then "" else Encoded(text[..|text| - 1]) + EncodedByte(text[|text| - 1])
  }

  const MAX_SEGMENT_BYTES := 96

  /** The segment of a name; a long one is replaced by the digest of its bytes, in hex. */
  function SegmentOf(text: seq<Byte>, digest: seq<Byte> -> string): string {
    if |Encoded(text)| <= MAX_SEGMENT_BYTES then Encoded(text) else "h-" + digest(text)
  }

  method Segment(text: seq<Byte>, digest: seq<Byte> -> string) returns (segment: string)
    ensures segment == SegmentOf(text, digest)
  {
    segment := "";
    var i := 0;
    while i < |text|
      invariant 0 <= i <= |text| && segment == Encoded(text[..i])
    {
      assert text[..i + 1][..i] == text[..i];
      if Plain(text[i]) {
        segment := segment + [text[i] as char];
      } else {
        segment := segment + ['%', HexDigit(text[i] / 16), HexDigit(text[i] % 16)];
      }
      i := i + 1;
    }
    assert text[..i] == text;
    if |segment| > MAX_SEGMENT_BYTES {
      segment := "h-" + digest(text);
    }
  }

  /** A short name spelled like the segment of a long one. */
  predicate SpellsDigestOf(short: seq<Byte>, long: seq<Byte>, digest: seq<Byte> -> string) {
    |Encoded(short)| <= MAX_SEGMENT_BYTES < |Encoded(long)| && Encoded(short) == "h-" + digest(long)
  }

  /** Two names share a cursor file exactly when both are long and their digests collide, or one is
      spelled like the other's digest. */
  lemma SegmentsAreShared(a: seq<Byte>, b: seq<Byte>, digest: seq<Byte> -> string)
    requires a != b
    ensures SegmentOf(a, digest) == SegmentOf(b, digest) <==>
              || (|Encoded(a)| > MAX_SEGMENT_BYTES && |Encoded(b)| > MAX_SEGMENT_BYTES && digest(a) == digest(b))
              || SpellsDigestOf(a, b, digest) || SpellsDigestOf(b, a, digest)
  {
    if Encoded(a) == Encoded(b) {
      EncodedIsUnique(a, b);
    }
    assert ("h-" + digest(a))[2..] == digest(a) && ("h-" + digest(b))[2..] == digest(b);
  }

  lemma HexDigitsDiffer(m: nat, n: nat)
    requires m < 16 && n < 16 && HexDigit(m) == HexDigit(n)
    ensures m == n
  {
  }

  lemma {:induction false} EncodedSplits(text: seq<Byte>)
    requires text != []
    ensures Encoded(text) == EncodedByte(text[0]) + Encoded(text[1..])
  {
    var n := |text| - 1;
    if n > 0 {
      EncodedSplits(text[..n]);
      assert text[..n][1..] == text[1..][..n - 1];
      assert Encoded(text) == EncodedByte(text[0]) + (Encoded(text[1..][..n - 1]) + EncodedByte(text[n]));
    }
  }

  lemma EncodedByteIsUnique(a: Byte, b: Byte, left: string, right: string)
    requires EncodedByte(a) + left == EncodedByte(b) + right
    ensures a == b && left == right
  {
    var whole := EncodedByte(a) + left;
    assert whole[0] == EncodedByte(a)[0] == EncodedByte(b)[0];
    if !Plain(a) {
      assert whole[1] == EncodedByte(a)[1] == EncodedByte(b)[1];
      assert whole[2] == EncodedByte(a)[2] == EncodedByte(b)[2];
      HexDigitsDiffer(a / 16, b / 16);
      HexDigitsDiffer(a % 16, b % 16);
    }
    assert left == whole[|EncodedByte(a)|..] && right == whole[|EncodedByte(b)|..];
  }

  /** The encoding alone tells every two names apart. */
  lemma {:induction false} EncodedIsUnique(a: seq<Byte>, b: seq<Byte>)
    requires Encoded(a) == Encoded(b)
    ensures a == b
    decreases |a|
  {
    if a == [] || b == [] {
      if b != [] {
        EncodedSplits(b);
      }
      if a != [] {
        EncodedSplits(a);
      }
    } else {
      EncodedSplits(a);
      EncodedSplits(b);
      EncodedByteIsUnique(a[0], b[0], Encoded(a[1..]), Encoded(b[1..]));
      EncodedIsUnique(a[1..], b[1..]);
      assert a == [a[0]] + a[1..] && b == [b[0]] + b[1..];
    }
  }
}
