/** The event stream the relay writes: Server-Sent Events framing (section
    9.2 of the WHATWG HTML Living Standard) restricted to what the relay
    uses, one `event:` line and one `data:` line per event and a blank line
    after each event. */
module Sse {
  import opened Wrappers
  import opened Strings
  import Json

  datatype Event = Delta(text: string) | Done | Error(message: string)

  function Name(e: Event): string {
    match e
    case Delta(_) => "delta"
    case Done => "done"
    case Error(_) => "error"
  }

  /** `JSON.stringify` of `{ delta }`, `{ ok: true }` and `{ error }`. */
  function Payload(e: Event): (r: string)
    ensures Json.NoControl(r)
    ensures |r| > 0 && r[0] == '{' && r[|r| - 1] == '}'
  {
    match e
    case Delta(t) => "{\"delta\":" + Json.Quote(t) + "}"
    case Done => "{\"ok\":true}"
    case Error(m) => "{\"error\":" + Json.Quote(m) + "}"
  }

  /** The `event:` and `data:` lines of one event, without line feeds. */
  function EventField(e: Event): (r: string)
    ensures Json.NoControl(r)
  {
    Json.NoControlAppend("event: ", Name(e));
    "event: " + Name(e)
  }

  function DataField(e: Event): (r: string)
    ensures Json.NoControl(r) && |r| > 0
  {
    Json.NoControlAppend("data: ", Payload(e));
    "data: " + Payload(e)
  }

  /** The two `res.write` calls that emit one event. */
  function EventLine(e: Event): string {
    EventField(e) + "\n"
  }

  function DataLine(e: Event): string {
    DataField(e) + "\n\n"
  }

  /** Everything that is written for a sequence of events, write by write. */
  function Writes(es: seq<Event>): (r: seq<string>)
    ensures |r| == 2 * |es|
    decreases |es|
  {
    if es == [] then []
    else Writes(DropLast(es)) + [EventLine(Last(es)), DataLine(Last(es))]
  }

  lemma WritesSnoc(es: seq<Event>, e: Event)
    ensures Writes(es + [e]) == Writes(es) + [EventLine(e), DataLine(e)]
  {
    DropLastAppend(es, [e]);
  }

  lemma {:induction false} WritesAppend(a: seq<Event>, b: seq<Event>)
    ensures Writes(a + b) == Writes(a) + Writes(b)
    decreases |b|
  {
    if b == [] {
      assert a + b == a;
    } else {
      var init, e := DropLast(b), Last(b);
      DropLastAppend(a, b);
      var pair := [EventLine(e), DataLine(e)];
      assert Writes(a + b) == Writes(a + init) + pair;
      WritesAppend(a, init);
      Assoc(Writes(a), Writes(init), pair);
    }
  }

  /** One event on the wire without its terminating blank line: the unit the
      client's split on `"\n\n"` recovers. */
  function Block(e: Event): string {
    EventLine(e) + DataField(e)
  }

  function Blocks(es: seq<Event>): (r: seq<string>)
    ensures |r| == |es| && forall k :: 0 <= k < |es| ==> r[k] == Block(es[k])
  {
    seq(|es|, k requires 0 <= k < |es| => Block(es[k]))
  }

  lemma BlocksDropLast(es: seq<Event>)
    requires |es| > 0
    ensures DropLast(Blocks(es)) == Blocks(DropLast(es)) && Last(Blocks(es)) == Block(Last(es))
  {
  }

  /** The text of the whole stream. */
  function Text(es: seq<Event>): string {
    Concat(Writes(es))
  }

  lemma TextSnoc(es: seq<Event>, e: Event)
    ensures Text(es + [e]) == Text(es) + Block(e) + "\n\n"
  {
    var el, dl := EventLine(e), DataLine(e);
    WritesSnoc(es, e);
    ConcatAppend(Writes(es), [el, dl]);
    ConcatPair(el, dl);
    Assoc(EventLine(e), DataField(e), "\n\n");
  }

  /** In `a + "\n" + c + "\n\n" + rest`, where neither `a` nor `c` has a
      control character and `c` is not empty, the first blank line is the
      one after `c`. */
  lemma FirstBlankLine(a: string, c: string, rest: string)
    requires Json.NoControl(a) && Json.NoControl(c) && |c| > 0
    ensures IndexOf(a + "\n" + c + "\n\n" + rest, "\n\n") == Some(|a| + 1 + |c|)
  {
    var x := a + "\n" + c + "\n\n" + rest;
    var i := |a| + 1 + |c|;
    assert x[i..i + 2] == "\n\n";
    forall j: nat | j < i ensures !OccursAt(x, "\n\n", j) {
      if j < |a| {
        assert x[j] == a[j];
      } else if j == |a| {
        assert x[j + 1] == c[0];
      } else {
        assert x[j] == c[j - |a| - 1];
      }
      assert x[j..j + 2][0] == x[j] && x[j..j + 2][1] == x[j + 1];
    }
    IndexOfIs(x, "\n\n", i);
  }

  /** A two-line frame followed by a blank line splits into the frame and
      an empty pending piece. */
  lemma SplitFrame(a: string, c: string)
    requires Json.NoControl(a) && Json.NoControl(c) && |c| > 0
    ensures Split(a + "\n" + c + "\n\n", "\n\n") == [a + "\n" + c, ""]
  {
    var p := a + "\n" + c;
    assert IndexOf(p + "\n\n", "\n\n") == Some(|p|) by {
      FirstBlankLine(a, c, "");
      assert p + "\n\n" == a + "\n" + c + "\n\n" + "";
    }
    SplitTerminated(p, "\n\n");
  }

  lemma SplitBlock(e: Event)
    ensures Split(Block(e) + "\n\n", "\n\n") == [Block(e), ""]
  {
    SplitFrame(EventField(e), DataField(e));
  }

  /** Appending one terminated frame to a text whose split ends in an empty
      piece adds that frame to the complete pieces. */
  lemma SplitSnoc(x: string, blk: string, blocks: seq<string>)
    requires Split(x, "\n\n") == blocks + [""]
    requires Split(blk + "\n\n", "\n\n") == [blk, ""]
    ensures Split(x + (blk + "\n\n"), "\n\n") == blocks + [blk] + [""]
  {
    SplitAppend(x, blk + "\n\n", "\n\n");
    assert DropLast(blocks + [""]) == blocks && Last(blocks + [""]) == "";
    assert "" + (blk + "\n\n") == blk + "\n\n";
  }

  /** Splitting the stream text on blank lines recovers every event, in
      order, and leaves an empty pending piece: an event's blank line
      terminator is the only blank line it contains. */
  lemma {:induction false} SplitText(es: seq<Event>)
    ensures Split(Text(es), "\n\n") == Blocks(es) + [""]
    decreases |es|
  {
    if es == [] {
      assert Text(es) == "" by {
        assert Writes(es) == [];
      }
      SplitEmpty("\n\n");
      assert Blocks(es) + [""] == [""];
    } else {
      var init, e := DropLast(es), Last(es);
      assert Text(es) == Text(init) + (Block(e) + "\n\n") by {
        assert es == init + [e];
        TextSnoc(init, e);
      }
      assert Blocks(es) == Blocks(init) + [Block(e)] by {
        assert es == init + [e];
      }
      SplitText(init);
      SplitBlock(e);
      SplitSnoc(Text(init), Block(e), Blocks(init));
    }
  }
}
