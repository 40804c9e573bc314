/** The background score engine: an exact colour histogram of the shared
    canvas mirror, recomputed whenever a CalculateScore command is picked up. */
module Scoring {
  import opened Messages

  /** Lexicographic order on RGB triples, the row order np.unique sorts into. */
  predicate Less(a: Rgb, b: Rgb) {
    a.r < b.r || (a.r == b.r && (a.g < b.g || (a.g == b.g && a.b < b.b)))
  }

  /** Number of pixels of colour c in buffer s. */
  function Count(s: seq<Rgb>, c: Rgb): nat {
    if s == [] then 0 else (if s[0] == c then 1 else 0) + Count(s[1..], c)
  }

  /** The colours listed in a histogram. */
  function Colors(h: seq<Score>): set<Rgb> {
    set i | 0 <= i < |h| :: h[i].color
  }

  /** Colours strictly ascending: sorted and without repetition. */
  ghost predicate Ascending(h: seq<Score>) {
    forall i, j :: 0 <= i < j < |h| ==> Less(h[i].color, h[j].color)
  }

  /** The count recorded for colour c, 0 when c is not listed. */
  function Lookup(h: seq<Score>, c: Rgb): nat {
    if h == [] then 0 else if h[0].color == c then h[0].count else Lookup(h[1..], c)
  }

  /** Sum of all counts of a histogram. */
  function Total(h: seq<Score>): nat {
    if h == [] then 0 else h[0].count + Total(h[1..])
  }

  /** Account for one more pixel of colour c in an ascending histogram. */
  function AddPixel(h: seq<Score>, c: Rgb): seq<Score> {
    if h == [] then [Score(c, 1)]
    else if h[0].color == c then [Score(c, h[0].count + 1)] + h[1..]
    else if Less(c, h[0].color) then [Score(c, 1)] + h
    else [h[0]] + AddPixel(h[1..], c)
  }

  /** np.unique(canvas, axis=0, return_counts=True) zipped into a dict: the
      distinct colours of the buffer in ascending order, each with its count. */
  function Histogram(s: seq<Rgb>): seq<Score> {
    if s == [] then [] else AddPixel(Histogram(s[1..]), s[0])
  }

  lemma LessIsStrictOrder(a: Rgb, b: Rgb, c: Rgb)
    ensures !Less(a, a)
    ensures Less(a, b) && Less(b, c) ==> Less(a, c)
    ensures a != b ==> Less(a, b) || Less(b, a)
  {
    if a != b && a.r == b.r && a.g == b.g {
      assert a.b != b.b;
    }
  }

  lemma {:induction false} LookupAbsent(h: seq<Score>, c: Rgb)
    requires c !in Colors(h)
    ensures Lookup(h, c) == 0
  {
    if h != [] {
      assert h[0].color in Colors(h);
      assert Colors(h[1..]) <= Colors(h) by {
        forall d | d in Colors(h[1..]) ensures d in Colors(h) {
          var i :| 0 <= i < |h[1..]| && h[1..][i].color == d;
          assert h[i + 1].color == d;
        }
      }
      LookupAbsent(h[1..], c);
    }
  }

  lemma ColorsCons(x: Score, h: seq<Score>)
    ensures Colors([x] + h) == {x.color} + Colors(h)
  {
    var l := [x] + h;
    forall d | d in Colors(l) ensures d in {x.color} + Colors(h) {
      var i :| 0 <= i < |l| && l[i].color == d;
      if i > 0 { assert h[i - 1].color == d; }
    }
    forall d | d in {x.color} + Colors(h) ensures d in Colors(l) {
      if d == x.color { assert l[0].color == d; }
      else { var i :| 0 <= i < |h| && h[i].color == d; assert l[i + 1].color == d; }
    }
  }

  /** Adding a pixel adds its colour to the keys. */
  lemma {:induction false} AddPixelColors(h: seq<Score>, c: Rgb)
    ensures Colors(AddPixel(h, c)) == Colors(h) + {c}
  {
    if h == [] {
      ColorsCons(Score(c, 1), []);
    } else {
      assert h == [h[0]] + h[1..];
      ColorsCons(h[0], h[1..]);
      if h[0].color == c {
        ColorsCons(Score(c, h[0].count + 1), h[1..]);
      } else if Less(c, h[0].color) {
        ColorsCons(Score(c, 1), h);
      } else {
        AddPixelColors(h[1..], c);
        ColorsCons(h[0], AddPixel(h[1..], c));
      }
    }
  }

  lemma AscendingTail(h: seq<Score>)
    requires Ascending(h) && h != []
    ensures Ascending(h[1..])
  {
    var t := h[1..];
    forall i, j | 0 <= i < j < |t| ensures Less(t[i].color, t[j].color) {
      assert t[i] == h[i + 1] && t[j] == h[j + 1];
    }
  }

  /** Every colour of an ascending histogram after its head is above the head. */
  lemma AscendingHead(h: seq<Score>, d: Rgb)
    requires Ascending(h) && h != []
    requires d in Colors(h[1..])
    ensures Less(h[0].color, d)
  {
    var k :| 0 <= k < |h[1..]| && h[1..][k].color == d;
    assert h[k + 1].color == d;
  }

  /** A head below every colour of an ascending tail keeps the list ascending. */
  lemma AscendingCons(x: Score, t: seq<Score>)
    requires Ascending(t)
    requires forall d :: d in Colors(t) ==> Less(x.color, d)
    ensures Ascending([x] + t)
  {
    var r := [x] + t;
    forall i, j | 0 <= i < j < |r| ensures Less(r[i].color, r[j].color) {
      assert r[j] == t[j - 1];
      if i == 0 {
        assert t[j - 1].color in Colors(t);
      } else {
        assert r[i] == t[i - 1];
      }
    }
  }

  /** Adding a pixel keeps the histogram ascending. */
  lemma {:induction false} AddPixelAscending(h: seq<Score>, c: Rgb)
    requires Ascending(h)
    ensures Ascending(AddPixel(h, c))
  {
    if h != [] {
      var t := h[1..];
      AscendingTail(h);
      if h[0].color == c {
        forall d | d in Colors(t) ensures Less(c, d) { AscendingHead(h, d); }
        AscendingCons(Score(c, h[0].count + 1), t);
      } else if Less(c, h[0].color) {
        forall d | d in Colors(h) ensures Less(c, d) {
          if d != h[0].color {
            assert h == [h[0]] + t;
            ColorsCons(h[0], t);
            AscendingHead(h, d);
            LessIsStrictOrder(c, h[0].color, d);
          }
        }
        AscendingCons(Score(c, 1), h);
      } else {
        AddPixelAscending(t, c);
        AddPixelColors(t, c);
        LessIsStrictOrder(c, h[0].color, c);
        forall d | d in Colors(AddPixel(t, c)) ensures Less(h[0].color, d) {
          if d != c { AscendingHead(h, d); }
        }
        AscendingCons(h[0], AddPixel(t, c));
      }
    }
  }

  /** Adding a pixel keeps every count positive and raises the total by one. */
  lemma {:induction false} AddPixelCounts(h: seq<Score>, c: Rgb)
    requires forall i :: 0 <= i < |h| ==> h[i].count >= 1
    ensures forall i :: 0 <= i < |AddPixel(h, c)| ==> AddPixel(h, c)[i].count >= 1
    ensures Total(AddPixel(h, c)) == Total(h) + 1
  {
    if h != [] && h[0].color != c && !Less(c, h[0].color) {
      AddPixelCounts(h[1..], c);
      var r := AddPixel(h, c);
      forall i | 0 <= i < |r| ensures r[i].count >= 1 {
        if i > 0 { assert r[i] == AddPixel(h[1..], c)[i - 1]; }
      }
    } else if h != [] && h[0].color == c {
      assert (AddPixel(h, c))[1..] == h[1..];
    } else if h != [] {
      assert (AddPixel(h, c))[1..] == h;
    }
  }

  /** Adding a pixel of colour c raises the count of c by one and leaves every
      other colour's count alone. */
  lemma {:induction false} AddPixelLookup(h: seq<Score>, c: Rgb, d: Rgb)
    requires Ascending(h)
    ensures Lookup(AddPixel(h, c), d) == Lookup(h, d) + (if d == c then 1 else 0)
  {
    var r := AddPixel(h, c);
    if h == [] {
    } else if h[0].color == c {
      assert r[1..] == h[1..];
    } else if Less(c, h[0].color) {
      assert r[1..] == h;
      if d == c {
        forall i | 0 <= i < |h| ensures h[i].color != c {
          LessIsStrictOrder(c, h[0].color, h[i].color);
          LessIsStrictOrder(c, c, c);
          if i > 0 { assert Less(h[0].color, h[i].color); }
        }
        LookupAbsent(h, c);
      }
    } else {
      assert r[1..] == AddPixel(h[1..], c);
      AscendingTail(h);
      AddPixelLookup(h[1..], c, d);
    }
  }

  /** The histogram's colours are exactly the distinct colours of the buffer,
      in strictly ascending order; every count is the number of occurrences of
      its colour (hence at least one); and the counts add up to the number of
      pixels in the buffer. */
  lemma {:induction false} HistogramIsExact(s: seq<Rgb>)
    ensures Ascending(Histogram(s))
    ensures Colors(Histogram(s)) == set c | c in s
    ensures forall c :: Lookup(Histogram(s), c) == Count(s, c)
    ensures forall i :: 0 <= i < |Histogram(s)| ==> Histogram(s)[i].count >= 1
    ensures Total(Histogram(s)) == |s|
  {
    if s != [] {
      var t := Histogram(s[1..]);
      HistogramIsExact(s[1..]);
      AddPixelColors(t, s[0]);
      AddPixelAscending(t, s[0]);
      AddPixelCounts(t, s[0]);
      forall c ensures Lookup(Histogram(s), c) == Count(s, c) {
        AddPixelLookup(t, s[0], c);
      }
      assert s == [s[0]] + s[1..];
      assert (set c | c in s) == (set c | c in s[1..]) + {s[0]};
    }
  }

  /** In an ascending histogram the entry at position i is the one a lookup of
      its colour finds. */
  lemma {:induction false} LookupAt(h: seq<Score>, i: nat)
    requires Ascending(h)
    requires i < |h|
    ensures Lookup(h, h[i].color) == h[i].count
  {
    if i > 0 {
      LessIsStrictOrder(h[0].color, h[i].color, h[i].color);
      assert Less(h[0].color, h[i].color);
      assert Ascending(h[1..]) by {
        forall a, b | 0 <= a < b < |h[1..]| ensures Less(h[1..][a].color, h[1..][b].color) {
          assert h[1..][a] == h[a + 1] && h[1..][b] == h[b + 1];
        }
      }
      LookupAt(h[1..], i - 1);
    }
  }

  /** Each histogram entry's count is the number of pixels of its colour. */
  lemma HistogramEntryCounts(s: seq<Rgb>, i: nat)
    requires i < |Histogram(s)|
    ensures Histogram(s)[i].count == Count(s, Histogram(s)[i].color)
  {
    HistogramIsExact(s);
    LookupAt(Histogram(s), i);
  }

  /** What the engine has done with a command trace: the messages it put on its
      output queue, how many commands it took off the command queue, and
      whether it stopped on Quit. */
  datatype EngineRun = EngineRun(outputs: seq<Msg>, taken: nat, quit: bool)

  /** The command loop of keep_score over the commands that reach it: Quit
      stops it, CalculateScore emits one UpdatedScores, anything else is
      logged and ignored.  When the trace is exhausted the engine is idle. */
  function Engine(canvas: seq<Rgb>, commands: seq<Msg>): (r: EngineRun)
    ensures r.taken <= |commands|
  {
    if commands == [] then EngineRun([], 0, false)
    else if commands[0] == Quit then EngineRun([], 1, true)
    else
      var rest := Engine(canvas, commands[1..]);
      var out := if commands[0] == CalculateScore then [UpdatedScores(Histogram(canvas))] else [];
      EngineRun(out + rest.outputs, rest.taken + 1, rest.quit)
  }

  /** Number of CalculateScore commands in a trace. */
  function Requests(commands: seq<Msg>): nat {
    if commands == [] then 0 else (if commands[0] == CalculateScore then 1 else 0) + Requests(commands[1..])
  }

  /** Without a Quit, every command is taken and each CalculateScore yields
      exactly one UpdatedScores carrying the histogram of the buffer; other
      commands yield nothing.  So two requests over an unchanged buffer get
      identical scoreboards. */
  lemma {:induction false} EngineAnswersEachRequest(canvas: seq<Rgb>, commands: seq<Msg>)
    requires Quit !in commands
    ensures Engine(canvas, commands).taken == |commands|
    ensures !Engine(canvas, commands).quit
    ensures |Engine(canvas, commands).outputs| == Requests(commands)
    ensures forall k :: 0 <= k < |Engine(canvas, commands).outputs| ==>
              Engine(canvas, commands).outputs[k] == UpdatedScores(Histogram(canvas))
  {
    if commands != [] {
      assert commands[0] in commands;
      assert forall m :: m in commands[1..] ==> m in commands;
      EngineAnswersEachRequest(canvas, commands[1..]);
    }
  }

  /** Quit ends the loop: nothing after it is taken or answered. */
  lemma {:induction false} EngineStopsAtQuit(canvas: seq<Rgb>, before: seq<Msg>, after: seq<Msg>)
    requires Quit !in before
    ensures Engine(canvas, before + [Quit] + after) ==
            EngineRun(Engine(canvas, before).outputs, |before| + 1, true)
  {
    if before == [] {
      assert before + [Quit] + after == [Quit] + after;
    } else {
      assert (before + [Quit] + after)[1..] == before[1..] + [Quit] + after;
      assert before[0] in before;
      assert forall m :: m in before[1..] ==> m in before;
      EngineStopsAtQuit(canvas, before[1..], after);
    }
  }

  /** The engine's run depends only on the commands it takes: running it on
      just those gives the same outputs, count and quit flag. */
  lemma {:induction false} EngineUsesOnlyTaken(canvas: seq<Rgb>, commands: seq<Msg>)
    ensures Engine(canvas, commands[..Engine(canvas, commands).taken]) == Engine(canvas, commands)
  {
    if commands != [] && commands[0] != Quit {
      var rest := commands[1..];
      var n := Engine(canvas, rest).taken;
      EngineUsesOnlyTaken(canvas, rest);
      assert commands[..n + 1][1..] == rest[..n];
    } else if commands != [] {
      assert commands[..1][0] == Quit;
    }
  }

  /** One command of the engine that is not a Quit. */
  lemma EngineStep(canvas: seq<Rgb>, commands: seq<Msg>)
    requires commands != [] && commands[0] != Quit
    ensures var rest := Engine(canvas, commands[1..]);
      Engine(canvas, commands) ==
        EngineRun((if commands[0] == CalculateScore then [UpdatedScores(Histogram(canvas))] else []) + rest.outputs,
                  rest.taken + 1, rest.quit)
  {
  }

  /** keep_score: attach to the shared buffer as width*height RGB triples and
      serve the command queue until Quit. */
  method KeepScore(width: nat, height: nat, shm: array<Rgb>, commands: seq<Msg>)
    returns (outputs: seq<Msg>, taken: nat, quit: bool)
    requires width * height <= shm.Length
    ensures EngineRun(outputs, taken, quit) == Engine(shm[..width * height], commands)
  {
    var canvas := shm[..width * height];
    ghost var run := Engine(canvas, commands);
    outputs, taken, quit := [], 0, false;
    assert commands[0..] == commands;
    while taken < |commands|
      invariant taken <= |commands|
      invariant run.outputs == outputs + Engine(canvas, commands[taken..]).outputs
      invariant run.taken == taken + Engine(canvas, commands[taken..]).taken
      invariant run.quit == Engine(canvas, commands[taken..]).quit
    {
      var command := commands[taken];
      ghost var rest := commands[taken..];
      assert rest[1..] == commands[taken + 1..];
      ghost var later := Engine(canvas, commands[taken + 1..]);
      taken := taken + 1;
      if command == Quit {
        quit := true;
        return;
      }
      EngineStep(canvas, rest);
      if command == CalculateScore {
        assert outputs + ([UpdatedScores(Histogram(canvas))] + later.outputs)
            == (outputs + [UpdatedScores(Histogram(canvas))]) + later.outputs;
        outputs := outputs + [UpdatedScores(Histogram(canvas))];
      } else {
        // unknown command: logged and ignored
        assert [] + later.outputs == later.outputs;
      }
    }
    assert commands[taken..] == [];
    assert outputs + [] == outputs;
  }
}
