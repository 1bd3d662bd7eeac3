/** Normalising the SDP answer of a browser: ICE credentials that only stand in a media section are
    repeated at session level. */
module Sdp {
  type Line = string

  const CRLF := "\r\n"

  const UFRAG := "a=ice-ufrag:"

  const PWD := "a=ice-pwd:"

  const MEDIA := "m="

  predicate StartsWith(line: Line, prefix: string) {
    prefix <= line
  }

  // Lines

  function ReplaceCrLf(s: string): string {
    if |s| >= 2 && s[0] == '\r' && s[1] == '\n' then "\n" + ReplaceCrLf(s[2..])
    else if s != [] then [s[0]] + ReplaceCrLf(s[1..])
    else []
  }

  function ReplaceCr(s: string): string {
    if s == [] then [] else [if s[0] == '\r' then '\n' else s[0]] + ReplaceCr(s[1..])
  }

  function Split(s: string): (lines: seq<Line>)
    ensures lines != []
  {
    if s == [] then
      [[]]
    else
      var rest := Split(s[1..]);
      if s[0] == '\n' then [[]] + rest else [[s[0]] + rest[0]] + rest[1..]
  }

  function NonEmpty(lines: seq<Line>): seq<Line> {
    if lines == [] then [] else (if lines[0] == [] then [] else [lines[0]]) + NonEmpty(lines[1..])
  }

  function LinesOf(sdp: string): seq<Line> {
    NonEmpty(Split(ReplaceCr(ReplaceCrLf(sdp))))
  }

  function Join(lines: seq<Line>): string {
    if lines == [] then [] else if |lines| == 1 then lines[0] else lines[0] + CRLF + Join(lines[1..])
  }

  // Normalising

  /** The index of the first line with this prefix, or the number of lines. */
  function FirstIndex(lines: seq<Line>, prefix: string): (i: nat)
    ensures i <= |lines|
    ensures forall j :: 0 <= j < i ==> !StartsWith(lines[j], prefix)
    ensures i < |lines| ==> StartsWith(lines[i], prefix)
  {
    if lines == [] || StartsWith(lines[0], prefix) then 0 else 1 + FirstIndex(lines[1..], prefix)
  }

  predicate Has(lines: seq<Line>, prefix: string) {
    FirstIndex(lines, prefix) < |lines|
  }

  function Find(lines: seq<Line>, prefix: string): seq<Line> {
    if Has(lines, prefix) then [lines[FirstIndex(lines, prefix)]] else []
  }

  /** What has to be repeated at session level. */
  function Inserted(session: seq<Line>, media: seq<Line>): seq<Line> {
    (if Has(session, UFRAG) then [] else Find(media, UFRAG)) + (if Has(session, PWD) then [] else Find(media, PWD))
  }

  function NormalizedLines(lines: seq<Line>): seq<Line> {
    var first := FirstIndex(lines, MEDIA);
    var session, media := lines[..first], lines[first..];
    if Has(session, UFRAG) && Has(session, PWD) then
      lines
    else
      var inserted := Inserted(session, media);
      if inserted == [] then lines else session + inserted + media
  }

  function NormalizeRemoteAnswerSdp(sdp: string): string {
    Join(NormalizedLines(LinesOf(sdp))) + CRLF
  }

  // Reading back what is written

  predicate Clean(line: Line) {
    line != [] && '\r' !in line && '\n' !in line
  }

  ghost predicate AllClean(lines: seq<Line>) {
    forall l :: l in lines ==> Clean(l)
  }

  lemma {:induction false} CrLfAfter(line: string, rest: string)
    requires '\r' !in line
    ensures ReplaceCrLf(line + CRLF + rest) == line + "\n" + ReplaceCrLf(rest)
    decreases |line|
  {
    var s := line + CRLF + rest;
    if line == [] {
      assert s == CRLF + rest && s[2..] == rest;
    } else {
      assert s[0] == line[0] && s[1..] == line[1..] + CRLF + rest;
      CrLfAfter(line[1..], rest);
      assert [line[0]] + (line[1..] + "\n" + ReplaceCrLf(rest)) == line + "\n" + ReplaceCrLf(rest);
    }
  }

  lemma {:induction false} CrAfter(line: string, rest: string)
    requires '\r' !in line
    ensures ReplaceCr(line + "\n" + rest) == line + "\n" + ReplaceCr(rest)
    decreases |line|
  {
    var s := line + "\n" + rest;
    if line == [] {
      assert s == "\n" + rest && s[1..] == rest;
    } else {
      assert s[0] == line[0] && s[1..] == line[1..] + "\n" + rest;
      CrAfter(line[1..], rest);
      assert [line[0]] + (line[1..] + "\n" + ReplaceCr(rest)) == line + "\n" + ReplaceCr(rest);
    }
  }

  lemma {:induction false} SplitAfter(line: string, rest: string)
    requires '\n' !in line
    ensures Split(line + "\n" + rest) == [line] + Split(rest)
    decreases |line|
  {
    var s := line + "\n" + rest;
    if line == [] {
      assert s == "\n" + rest && s[1..] == rest;
    } else {
      assert s[0] == line[0] && s[1..] == line[1..] + "\n" + rest;
      SplitAfter(line[1..], rest);
      assert [line[0]] + line[1..] == line;
    }
  }

  lemma LineAfter(line: Line, rest: string)
    requires Clean(line)
    ensures LinesOf(line + CRLF + rest) == [line] + LinesOf(rest)
  {
    CrLfAfter(line, rest);
    CrAfter(line, ReplaceCrLf(rest));
    SplitAfter(line, ReplaceCr(ReplaceCrLf(rest)));
    assert ([line] + Split(ReplaceCr(ReplaceCrLf(rest))))[1..] == Split(ReplaceCr(ReplaceCrLf(rest)));
  }

  /** What is written reads back as the same lines. */
  lemma {:induction false} WrittenReads(lines: seq<Line>)
    requires AllClean(lines)
    ensures LinesOf(Join(lines) + CRLF) == lines
    decreases |lines|
  {
    hide LinesOf, Clean;
    if lines == [] {
      NothingWritten();
      assert Join(lines) + CRLF == CRLF;
    } else {
      assert lines[0] in lines && forall l :: l in lines[1..] ==> l in lines;
      if |lines| == 1 {
        LineAfter(lines[0], []);
        assert lines[0] + CRLF + [] == Join(lines) + CRLF;
        NothingRead();
      } else {
        WrittenReads(lines[1..]);
        LineAfter(lines[0], Join(lines[1..]) + CRLF);
        assert lines[0] + CRLF + (Join(lines[1..]) + CRLF) == Join(lines) + CRLF;
      }
    }
  }

  lemma NothingRead()
    ensures LinesOf([]) == []
  {
  }

  lemma NothingWritten()
    ensures LinesOf(CRLF) == []
  {
  }

  lemma {:induction false} NoCr(s: string)
    ensures '\r' !in ReplaceCr(s)
  {
    if s != [] {
      NoCr(s[1..]);
    }
  }

  lemma {:induction false} SplitClean(s: string)
    requires '\r' !in s
    ensures forall l :: l in Split(s) ==> '\r' !in l && '\n' !in l
    decreases |s|
  {
    if s != [] {
      SplitClean(s[1..]);
      var rest := Split(s[1..]);
      assert rest[0] in rest && s[0] != '\r';
      assert forall l :: l in rest[1..] ==> l in rest;
    }
  }

  lemma {:induction false} NonEmptyKeeps(lines: seq<Line>)
    ensures forall l :: l in NonEmpty(lines) <==> l in lines && l != []
  {
    if lines != [] {
      NonEmptyKeeps(lines[1..]);
      assert forall l :: l in lines <==> l == lines[0] || l in lines[1..];
    }
  }

  lemma LinesClean(sdp: string)
    ensures AllClean(LinesOf(sdp))
  {
    var s := ReplaceCr(ReplaceCrLf(sdp));
    NoCr(ReplaceCrLf(sdp));
    SplitClean(s);
    NonEmptyKeeps(Split(s));
  }

  // What normalising does

  lemma {:induction false} FirstIndexAt(lines: seq<Line>, prefix: string, i: nat)
    requires i <= |lines| && (forall j :: 0 <= j < i ==> !StartsWith(lines[j], prefix))
    requires i < |lines| ==> StartsWith(lines[i], prefix)
    ensures FirstIndex(lines, prefix) == i
  {
  }

  lemma InsertedLines(session: seq<Line>, media: seq<Line>)
    ensures |Inserted(session, media)| <= 2
    ensures forall l :: l in Inserted(session, media) ==> l in media && (StartsWith(l, UFRAG) || StartsWith(l, PWD))
    ensures forall l :: l in Inserted(session, media) ==> !StartsWith(l, MEDIA)
    ensures Has(session, UFRAG) || Has(media, UFRAG) ==> Has(session + Inserted(session, media), UFRAG)
    ensures Has(session, PWD) || Has(media, PWD) ==> Has(session + Inserted(session, media), PWD)
  {
    NotMedia(UFRAG);
    NotMedia(PWD);
    HasInserted(session, media);
  }

  lemma NotMedia(prefix: string)
    requires prefix == UFRAG || prefix == PWD
    ensures forall l: Line :: StartsWith(l, prefix) ==> !StartsWith(l, MEDIA)
  {
    assert prefix[0] == 'a' && MEDIA[0] == 'm';
  }

  lemma HasInserted(session: seq<Line>, media: seq<Line>)
    ensures Has(session, UFRAG) || Has(media, UFRAG) ==> Has(session + Inserted(session, media), UFRAG)
    ensures Has(session, PWD) || Has(media, PWD) ==> Has(session + Inserted(session, media), PWD)
  {
    var inserted := Inserted(session, media);
    var all := session + inserted;
    if Has(session, UFRAG) {
      HasIn(all, UFRAG, session[FirstIndex(session, UFRAG)]);
    } else if Has(media, UFRAG) {
      assert inserted[0] == Find(media, UFRAG)[0];
      HasIn(all, UFRAG, inserted[0]);
    }
    if Has(session, PWD) {
      HasIn(all, PWD, session[FirstIndex(session, PWD)]);
    } else if Has(media, PWD) {
      assert inserted[|inserted| - 1] == Find(media, PWD)[0];
      HasIn(all, PWD, inserted[|inserted| - 1]);
    }
  }

  lemma HasIn(lines: seq<Line>, prefix: string, line: Line)
    requires line in lines && StartsWith(line, prefix)
    ensures Has(lines, prefix)
  {
  }

  /** The lines before the first media section, and the rest. */
  function Session(lines: seq<Line>): seq<Line> {
    lines[..FirstIndex(lines, MEDIA)]
  }

  function Media(lines: seq<Line>): seq<Line> {
    lines[FirstIndex(lines, MEDIA)..]
  }

  lemma NormalizedIs(lines: seq<Line>)
    ensures lines == Session(lines) + Media(lines)
    ensures NormalizedLines(lines) == Session(lines) + Inserted(Session(lines), Media(lines)) + Media(lines)
  {
  }

  lemma SplitAtMedia(session: seq<Line>, media: seq<Line>)
    requires forall l :: l in session ==> !StartsWith(l, MEDIA)
    requires media != [] ==> StartsWith(media[0], MEDIA)
    ensures Session(session + media) == session && Media(session + media) == media
  {
    var all := session + media;
    assert forall j :: 0 <= j < |session| ==> all[j] == session[j] && session[j] in session;
    FirstIndexAt(all, MEDIA, |session|);
  }

  /** At most two lines are inserted before the first media section; taking them out gives the input
      back, and the media sections stay as they are. */
  lemma OnlyInserts(lines: seq<Line>)
    ensures lines == Session(lines) + Media(lines)
    ensures var inserted := Inserted(Session(lines), Media(lines));
            var out := NormalizedLines(lines);
            && |inserted| <= 2 && (forall l :: l in inserted ==> l in Media(lines))
            && out == Session(lines) + inserted + Media(lines)
            && Session(out) == Session(lines) + inserted && Media(out) == Media(lines)
  {
    var session, media := Session(lines), Media(lines);
    var inserted := Inserted(session, media);
    NormalizedIs(lines);
    InsertedLines(session, media);
    SplitAtMedia(session + inserted, media) by {
      hide Inserted, StartsWith;
    }
  }

  /** A credential stands at session level in the output exactly if it stands anywhere in the input. */
  lemma CredentialsAtSessionLevel(lines: seq<Line>, prefix: string)
    requires prefix == UFRAG || prefix == PWD
    ensures Has(Session(NormalizedLines(lines)), prefix) <==> exists l :: l in lines && StartsWith(l, prefix)
  {
    hide Inserted, NormalizedLines, FirstIndex, StartsWith, Session, Media, Has, UFRAG, PWD, MEDIA;
    var session, media := Session(lines), Media(lines);
    OnlyInserts(lines);
    InsertedLines(session, media);
    var out := session + Inserted(session, media);
    if l :| l in lines && StartsWith(l, prefix) {
      if l in session {
        HasIn(session, prefix, l);
      } else {
        HasIn(media, prefix, l);
      }
    }
    if Has(out, prefix) {
      var l := HasLine(out, prefix);
    }
  }

  lemma HasLine(lines: seq<Line>, prefix: string) returns (l: Line)
    requires Has(lines, prefix)
    ensures l in lines && StartsWith(l, prefix)
  {
    l := lines[FirstIndex(lines, prefix)];
  }

  lemma NothingMore(session: seq<Line>, media: seq<Line>)
    ensures Inserted(session + Inserted(session, media), media) == []
  {
    hide FirstIndex, StartsWith;
    HasInserted(session, media);
  }

  lemma LinesIdempotent(lines: seq<Line>)
    ensures NormalizedLines(NormalizedLines(lines)) == NormalizedLines(lines)
  {
    hide Inserted, NormalizedLines, FirstIndex, Session, Media;
    var out := NormalizedLines(lines);
    OnlyInserts(lines);
    NormalizedIs(out);
    NothingMore(Session(lines), Media(lines));
    assert Session(out) + [] + Media(out) == out;
  }

  /** Normalising twice is normalising once. */
  lemma Idempotent(sdp: string)
    ensures NormalizeRemoteAnswerSdp(NormalizeRemoteAnswerSdp(sdp)) == NormalizeRemoteAnswerSdp(sdp)
    ensures LinesOf(NormalizeRemoteAnswerSdp(sdp)) == NormalizedLines(LinesOf(sdp))
  {
    var lines := LinesOf(sdp);
    LinesClean(sdp);
    OnlyInserts(lines);
    assert AllClean(NormalizedLines(lines)) by {
      hide Inserted, NormalizedLines, Session, Media, Clean;
    }
    WrittenReads(NormalizedLines(lines));
    LinesIdempotent(lines);
  }
}
