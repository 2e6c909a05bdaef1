/**
 What Control.Lawful takes for granted of a response's text can be had: a codec that writes a response as
 numbers, and a number n as n ones and a zero.
 */
module LawfulCodec {
  import opened Common
  import opened DaemonFields
  import opened Streams
  import opened Control

  function Unary(n: nat): (s: seq<Byte>)
    ensures s != [] && !IsBlank(s[0])
  {
    if n == 0 then [0] else [1] + Unary(n - 1)
  }

  function Numbers(ns: seq<nat>): seq<Byte> {
    if ns == [] then [] else Unary(ns[0]) + Numbers(ns[1..])
  }

  /** A list is written with its length before it. */
  function List(ns: seq<nat>): seq<Byte> {
    Unary(|ns|) + Numbers(ns)
  }

  lemma {:induction false} UnaryEnds(m: nat, n: nat, s: seq<Byte>, t: seq<Byte>)
    requires Unary(m) + s == Unary(n) + t
    ensures m == n && s == t
  {
    assert (Unary(m) + s)[0] == (Unary(n) + t)[0];
    assert (Unary(m) + s)[1..] == (Unary(n) + t)[1..];
    if m > 0 && n > 0 {
      assert (Unary(m) + s)[1..] == Unary(m - 1) + s;
      assert (Unary(n) + t)[1..] == Unary(n - 1) + t;
      UnaryEnds(m - 1, n - 1, s, t);
    } else {
      assert (Unary(m) + s)[1..] == s && (Unary(n) + t)[1..] == t;
    }
  }

  lemma {:induction false} NumbersEnd(ms: seq<nat>, ns: seq<nat>, s: seq<Byte>, t: seq<Byte>)
    requires |ms| == |ns| && Numbers(ms) + s == Numbers(ns) + t
    ensures ms == ns && s == t
  {
    if ms == [] {
      assert Numbers(ms) + s == s && Numbers(ns) + t == t;
    } else {
      assert Numbers(ms) + s == Unary(ms[0]) + (Numbers(ms[1..]) + s);
      assert Numbers(ns) + t == Unary(ns[0]) + (Numbers(ns[1..]) + t);
      UnaryEnds(ms[0], ns[0], Numbers(ms[1..]) + s, Numbers(ns[1..]) + t);
      NumbersEnd(ms[1..], ns[1..], s, t);
      assert ms == [ms[0]] + ms[1..] && ns == [ns[0]] + ns[1..];
    }
  }

  lemma ListEnds(ms: seq<nat>, ns: seq<nat>, s: seq<Byte>, t: seq<Byte>)
    requires List(ms) + s == List(ns) + t
    ensures ms == ns && s == t
  {
    assert List(ms) + s == Unary(|ms|) + (Numbers(ms) + s);
    assert List(ns) + t == Unary(|ns|) + (Numbers(ns) + t);
    UnaryEnds(|ms|, |ns|, Numbers(ms) + s, Numbers(ns) + t);
    NumbersEnd(ms, ns, s, t);
  }

  // ----- A response as numbers

  function Bit(b: bool): nat {
    if b then 1 else 0
  }

  function Abs(n: int): nat {
    if n < 0 then -n else n
  }

  function EventNumber(e: Event): nat {
    match e
    case ErrorEvent => 0
    case StatusEvent => 1
    case StoppingEvent => 2
    case AcceptedEvent => 3
    case ProgressEvent => 4
    case InstalledEvent => 5
    case UninstalledEvent => 6
    case TestsStartedEvent => 7
    case TestsFinishedEvent => 8
    case ScreenshotEvent => 9
  }

  function StateNumber(state: Option<Label>): nat {
    match state
    case None => 0
    case Some(Waiting) => 1
    case Some(Connecting) => 2
    case Some(Active) => 3
    case Some(Installing) => 4
    case Some(Uninstalling) => 5
    case Some(Recovering) => 6
    case Some(SessionLost) => 7
    case Some(Stopping) => 8
  }

  function Chars(s: string): (ns: seq<nat>)
    ensures |ns| == |s|
    ensures forall i :: 0 <= i < |s| ==> ns[i] == s[i] as int
  {
    seq(|s|, i requires 0 <= i < |s| => s[i] as int)
  }

  lemma CharsDiffer(s: string, t: string)
    requires Chars(s) == Chars(t)
    ensures s == t
  {
    assert |s| == |t|;
    forall i | 0 <= i < |s| ensures s[i] == t[i] {
      assert Chars(s)[i] == Chars(t)[i];
    }
  }

  function Fixed(r: Response): seq<nat> {
    [Bit(r.ok), Bit(r.final), EventNumber(r.event), Bit(r.percent < 0), Abs(r.percent), Bit(r.imageBytes < 0),
     Abs(r.imageBytes), StateNumber(r.state), r.generation, r.sessionLosses, r.installCount, r.uninstallCount,
     r.testCount, r.screenshotCount]
  }

  function Encode(r: Response): (s: seq<Byte>)
    ensures s != [] && !IsBlank(s[0])
  {
    List(Fixed(r)) + List(Chars(r.errorCode)) + List(Chars(r.text)) + List(Chars(r.lastErrorCode))
    + List(Chars(r.resultPath))
  }

  lemma FixedDiffer(a: Response, b: Response)
    requires Fixed(a) == Fixed(b)
    ensures a.(errorCode := b.errorCode, text := b.text, lastErrorCode := b.lastErrorCode,
               resultPath := b.resultPath) == b
  {
    assert Fixed(a)[0] == Fixed(b)[0] && Fixed(a)[1] == Fixed(b)[1] && Fixed(a)[2] == Fixed(b)[2];
    assert Fixed(a)[3] == Fixed(b)[3] && Fixed(a)[4] == Fixed(b)[4] && Fixed(a)[5] == Fixed(b)[5];
    assert Fixed(a)[6] == Fixed(b)[6] && Fixed(a)[7] == Fixed(b)[7] && Fixed(a)[8] == Fixed(b)[8];
    assert Fixed(a)[9] == Fixed(b)[9] && Fixed(a)[10] == Fixed(b)[10] && Fixed(a)[11] == Fixed(b)[11];
    assert Fixed(a)[12] == Fixed(b)[12] && Fixed(a)[13] == Fixed(b)[13];
  }

  lemma Five(a: seq<Byte>, b: seq<Byte>, c: seq<Byte>, d: seq<Byte>, e: seq<Byte>, s: seq<Byte>)
    ensures a + b + c + d + e + s == a + (b + (c + (d + (e + s))))
  {
  }

  /** No response's text is the start of another's. */
  lemma EncodeEnds(a: Response, b: Response, s: seq<Byte>, t: seq<Byte>)
    requires Encode(a) + s == Encode(b) + t
    ensures a == b
  {
    hide List;
    hide Fixed;
    hide Chars;
    var a1, a2 := List(Chars(a.errorCode)), List(Chars(a.text));
    var a3, a4 := List(Chars(a.lastErrorCode)), List(Chars(a.resultPath));
    var b1, b2 := List(Chars(b.errorCode)), List(Chars(b.text));
    var b3, b4 := List(Chars(b.lastErrorCode)), List(Chars(b.resultPath));
    Five(List(Fixed(a)), a1, a2, a3, a4, s);
    Five(List(Fixed(b)), b1, b2, b3, b4, t);
    ListEnds(Fixed(a), Fixed(b), a1 + (a2 + (a3 + (a4 + s))), b1 + (b2 + (b3 + (b4 + t))));
    ListEnds(Chars(a.errorCode), Chars(b.errorCode), a2 + (a3 + (a4 + s)), b2 + (b3 + (b4 + t)));
    ListEnds(Chars(a.text), Chars(b.text), a3 + (a4 + s), b3 + (b4 + t));
    ListEnds(Chars(a.lastErrorCode), Chars(b.lastErrorCode), a4 + s, b4 + t);
    ListEnds(Chars(a.resultPath), Chars(b.resultPath), s, t);
    CharsDiffer(a.errorCode, b.errorCode);
    CharsDiffer(a.text, b.text);
    CharsDiffer(a.lastErrorCode, b.lastErrorCode);
    CharsDiffer(a.resultPath, b.resultPath);
    FixedDiffer(a, b);
  }

  // ----- The codec

  ghost function ScanFor(s: seq<Byte>): Scan {
    if r :| Encode(r) <= s then Found(r, |Encode(r)|) else More
  }

  lemma OnlyOneFits(s: seq<Byte>, a: Response, b: Response)
    requires Encode(a) <= s && Encode(b) <= s
    ensures a == b
  {
    hide Encode;
    assert s == Encode(a) + s[|Encode(a)|..] == Encode(b) + s[|Encode(b)|..];
    EncodeEnds(a, b, s[|Encode(a)|..], s[|Encode(b)|..]);
  }

  lemma ScanFinds(s: seq<Byte>, r: Response)
    requires Encode(r) <= s
    ensures ScanFor(s) == Found(r, |Encode(r)|)
  {
    hide Encode;
    var found := ScanFor(s).response;
    OnlyOneFits(s, r, found);
  }

  lemma ScanIsPrefix(s: seq<Byte>)
    ensures var scan := ScanFor(s);
            scan.Found? ==>
              0 < scan.length <= |s| && Encode(scan.response) <= s && scan.length == |Encode(scan.response)|
  {
    hide Encode;
  }

  lemma NeverBad(s: seq<Byte>)
    ensures ScanFor(s).More? || ScanFor(s).Found?
  {
  }

  lemma ScanStands(s: seq<Byte>, t: seq<Byte>)
    requires s <= t && ScanFor(s).Found?
    ensures ScanFor(t) == ScanFor(s)
  {
    hide Encode;
    hide ScanFor;
    ScanIsPrefix(s);
    ScanFinds(t, ScanFor(s).response);
  }

  lemma SomeCodecIsLawful()
    ensures exists codec :: Lawful(codec)
  {
    hide Encode;
    hide ScanFor;
    hide IsBlank;
    var codec := Codec(r => Encode(r), s => ScanFor(s));
    forall s ensures codec.scan(s).Found? ==> 0 < codec.scan(s).length <= |s| { ScanIsPrefix(s); }
    forall r ensures codec.scan(codec.encode(r)) == Found(r, |codec.encode(r)|) {
      ScanFinds(Encode(r), r);
    }
    forall s, t | s <= t && !codec.scan(s).More? ensures codec.scan(t) == codec.scan(s) {
      NeverBad(s);
      ScanStands(s, t);
    }
    assert Lawful(codec);
  }
}
