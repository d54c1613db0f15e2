/** The folded-stack text format (`frame;frame;...;frame COUNT`, one sample per
    line) that the exporter's text endpoint serves and its mock profile imitates. */
module Folded {
  import opened Strconv
  import opened Strings

  /** One aggregated call-stack sample: frames outermost first, and how many
      times the stack was seen. */
  datatype Sample = Sample(frames: seq<string>, count: nat)

  /** A character that can appear inside a frame name: not the frame
      separator, the count separator or the line separator. */
  predicate FrameChar(c: char) {
    c != ';' && c != ' ' && c != '\n'
  }

  /** A frame name the line format can carry unambiguously. */
  predicate ValidFrame(f: string) {
    |f| > 0 && forall i :: 0 <= i < |f| ==> FrameChar(f[i])
  }

  predicate ValidSample(s: Sample) {
    |s.frames| > 0 && forall i :: 0 <= i < |s.frames| ==> ValidFrame(s.frames[i])
  }

  /** The text of one sample: its frames joined by ';', a space, the count. */
  function Line(s: Sample): string {
    Join(s.frames, ";") + " " + Itoa(s.count)
  }

  /** Samples rendered one per line, each line ending in a newline. */
  function Render(samples: seq<Sample>): string {
    if |samples| == 0 then "" else Line(samples[0]) + "\n" + Render(samples[1..])
  }

  // Shape of a folded line, stated on the text alone.

  /** `frame(;frame)*`: non-empty frames separated by single ';', no blanks. */
  predicate IsFrameList(t: string) {
    && |t| > 0
    && t[0] != ';'
    && t[|t| - 1] != ';'
    && (forall i :: 0 <= i < |t| ==> t[i] != ' ' && t[i] != '\n')
    && forall i :: 0 <= i < |t| - 1 ==> !(t[i] == ';' && t[i + 1] == ';')
  }

  predicate IsCount(t: string) {
    |t| > 0 && AllDigits(t)
  }

  /** `frame(;frame)* COUNT`, split at the one space the line contains. */
  predicate IsFoldedLine(l: string) {
    exists k :: 0 < k < |l| && l[k] == ' ' && IsFrameList(l[..k]) && IsCount(l[k + 1..])
  }

  /** Joining valid frames with ';' yields a well-formed frame list. */
  lemma {:induction false} JoinIsFrameList(frames: seq<string>)
    requires |frames| > 0
    requires forall i :: 0 <= i < |frames| ==> ValidFrame(frames[i])
    ensures IsFrameList(Join(frames, ";"))
  {
    if |frames| > 1 {
      var head := frames[0];
      var rest := Join(frames[1..], ";");
      JoinIsFrameList(frames[1..]);
      var t := Join(frames, ";");
      assert t == head + ";" + rest;
      assert t[0] == head[0];
      assert t[|t| - 1] == rest[|rest| - 1];
      forall i | 0 <= i < |t|
        ensures t[i] != ' ' && t[i] != '\n'
      {
        if i < |head| {
          assert t[i] == head[i];
        } else if i > |head| {
          assert t[i] == rest[i - |head| - 1];
        }
      }
      forall i | 0 <= i < |t| - 1
        ensures !(t[i] == ';' && t[i + 1] == ';')
      {
        if i < |head| {
          assert t[i] == head[i] && FrameChar(head[i]);
        } else if i == |head| {
          assert t[i + 1] == rest[0];
        } else {
          assert t[i] == rest[i - |head| - 1] && t[i + 1] == rest[i - |head|];
        }
      }
    }
  }

  /** Every valid sample renders as a well-formed folded line. */
  lemma LineIsFolded(s: Sample)
    requires ValidSample(s)
    ensures IsFoldedLine(Line(s))
  {
    var frames := Join(s.frames, ";");
    JoinIsFrameList(s.frames);
    var l := Line(s);
    var k := |frames|;
    assert l[..k] == frames;
    assert l[k + 1..] == Itoa(s.count);
    assert l[k] == ' ';
  }

  /** The lines of a rendering, one per sample. */
  function Lines(samples: seq<Sample>): (r: seq<string>)
    ensures |r| == |samples|
    ensures forall i :: 0 <= i < |samples| ==> r[i] == Line(samples[i])
  {
    if |samples| == 0 then [] else [Line(samples[0])] + Lines(samples[1..])
  }

  lemma NoNewlineInDigits(s: string)
    requires AllDigits(s)
    ensures '\n' !in s
  {
    assert forall i :: 0 <= i < |s| ==> s[i] != '\n';
  }

  lemma NoNewlineInItoa(n: int)
    ensures '\n' !in Itoa(n)
  {
    var m := if n < 0 then -n else n;
    NoNewlineInDigits(NatToDecimal(m));
  }

  lemma NoNewlineInLine(s: Sample)
    requires ValidSample(s)
    ensures '\n' !in Line(s)
  {
    var frames := Join(s.frames, ";");
    JoinIsFrameList(s.frames);
    NoNewlineInItoa(s.count);
    var l := Line(s);
    assert l == frames + " " + Itoa(s.count);
    forall i | 0 <= i < |l|
      ensures l[i] != '\n'
    {
      if i < |frames| {
        assert l[i] == frames[i];
      } else if i > |frames| {
        assert l[i] == Itoa(s.count)[i - |frames| - 1];
      }
    }
  }

  /** Splitting a rendering on newlines gives back exactly one line per
      sample, followed by the empty piece after the final newline. */
  lemma {:induction false} SplitRender(samples: seq<Sample>)
    requires forall i :: 0 <= i < |samples| ==> ValidSample(samples[i])
    ensures SplitLines(Render(samples)) == Lines(samples) + [""]
  {
    if |samples| > 0 {
      NoNewlineInLine(samples[0]);
      SplitLinesCons(Line(samples[0]), Render(samples[1..]));
      SplitRender(samples[1..]);
    } else {
      assert '\n' !in "";
    }
  }

  /** A newline-free first line followed by rendered samples splits into that
      line, one line per sample, and the empty piece after the last newline. */
  lemma SplitHeaderAndRender(h: string, samples: seq<Sample>)
    requires '\n' !in h
    requires forall i :: 0 <= i < |samples| ==> ValidSample(samples[i])
    ensures SplitLines(h + "\n" + Render(samples)) == [h] + Lines(samples) + [""]
  {
    SplitLinesCons(h, Render(samples));
    SplitRender(samples);
  }

  /** Every line of a rendering of valid samples is a well-formed folded line. */
  lemma LinesAreFolded(samples: seq<Sample>)
    requires forall i :: 0 <= i < |samples| ==> ValidSample(samples[i])
    ensures forall i :: 0 <= i < |samples| ==> IsFoldedLine(Lines(samples)[i])
  {
    forall i | 0 <= i < |samples|
      ensures IsFoldedLine(Lines(samples)[i])
    {
      LineIsFolded(samples[i]);
    }
  }
}
