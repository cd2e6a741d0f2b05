/** Splitting an outbound message into chunks a platform accepts. Content is a sequence of runes. */
module ChannelSplit {

  datatype Outbound = Outbound(
    id: string, channelID: string, targetID: string, replyToMessageID: string,
    content: string, metadata: map<string, string>, idempotencyKey: string)

  function MaxMessageLength(kind: string): int
  {
    if kind == "telegram" then 4000
    else if kind == "dingtalk" then 20000
    else if kind == "wecom" || kind == "wecom_app" || kind == "wecom_aibot" then 2048
    else 0
  }

  /** A chunk may end after one of these. */
  predicate IsBoundary(c: char)
  {
    c == '\n' || c == ' ' || c == '\t'
  }

  /** These are dropped between chunks. */
  predicate IsDropped(c: char)
  {
    c == ' ' || c == '\t' || c == '\n' || c == '\r'
  }

  /** index is a boundary cut at least a quarter of the limit before the limit. */
  predicate IsCandidate(runes: string, limit: nat, index: int)
  {
    1 <= index <= limit <= |runes| && IsBoundary(runes[index - 1]) && limit - index >= limit / 4
  }

  /** The cut the splitter promises: everything that fits, else the rightmost candidate, else the limit. */
  ghost predicate IsCut(runes: string, limit: nat, cut: nat)
  {
    if |runes| <= limit then cut == |runes|
    else
      && (IsCandidate(runes, limit, cut) || (cut == limit && forall i :: !IsCandidate(runes, limit, i)))
      && (forall i :: IsCandidate(runes, limit, i) ==> i <= cut)
  }

  /** The downward search below an index. */
  function CutBelow(runes: string, limit: nat, index: nat): nat
    requires index <= limit < |runes|
  {
    if index == 0 then limit
    else if IsCandidate(runes, limit, index) then index
    else CutBelow(runes, limit, index - 1)
  }

  function Cut(runes: string, limit: nat): nat
  {
    if |runes| <= limit then |runes| else CutBelow(runes, limit, limit)
  }

  lemma {:induction false} CutBelowIsRightmost(runes: string, limit: nat, index: nat)
    requires index <= limit < |runes|
    requires forall i :: IsCandidate(runes, limit, i) ==> i <= index
    ensures IsCut(runes, limit, CutBelow(runes, limit, index))
  {
    if index > 0 && !IsCandidate(runes, limit, index) {
      CutBelowIsRightmost(runes, limit, index - 1);
    }
  }

  /** The search finds the promised cut, and no other index is one. */
  lemma CutIsTheCut(runes: string, limit: nat, cut: nat)
    ensures IsCut(runes, limit, cut) <==> cut == Cut(runes, limit)
  {
    if |runes| > limit {
      CutBelowIsRightmost(runes, limit, limit);
    }
  }

  function SkipDropped(runes: string): string
  {
    if runes != "" && IsDropped(runes[0]) then SkipDropped(runes[1..]) else runes
  }

  lemma {:induction false} SkipDroppedShape(runes: string)
    ensures var rest := SkipDropped(runes);
      && |rest| <= |runes| && rest == runes[|runes| - |rest|..]
      && (forall i :: 0 <= i < |runes| - |rest| ==> IsDropped(runes[i]))
      && (rest != "" ==> !IsDropped(rest[0]))
  {
    if runes != "" && IsDropped(runes[0]) {
      var tail := runes[1..];
      SkipDroppedShape(tail);
      var rest := SkipDropped(tail);
      var dropped := |runes| - |rest|;
      assert runes[dropped..] == tail[dropped - 1..];
      forall i | 0 <= i < dropped ensures IsDropped(runes[i]) {
        if i > 0 {
          assert runes[i] == tail[i - 1];
        }
      }
    }
  }

  /** One chunk and the whitespace dropped after it. */
  datatype Piece = Piece(chunk: string, gap: string)

  lemma CutBounds(runes: string, limit: nat)
    requires limit > 0 && runes != ""
    ensures 1 <= Cut(runes, limit) <= limit && Cut(runes, limit) <= |runes|
  {
    CutIsTheCut(runes, limit, Cut(runes, limit));
  }

  function Rest(runes: string, limit: nat): string
    requires limit > 0 && runes != ""
    ensures |Rest(runes, limit)| < |runes|
  {
    CutBounds(runes, limit);
    SkipDroppedShape(runes[Cut(runes, limit)..]);
    SkipDropped(runes[Cut(runes, limit)..])
  }

  /** The first piece of non-empty content, and what is left after it. */
  function Head(runes: string, limit: nat): Piece
    requires limit > 0 && runes != ""
  {
    CutBounds(runes, limit);
    var cut, rest := Cut(runes, limit), Rest(runes, limit);
    SkipDroppedShape(runes[cut..]);
    Piece(runes[..cut], runes[cut..|runes| - |rest|])
  }

  function Pieces(runes: string, limit: nat): seq<Piece>
    requires limit > 0
    decreases |runes|
  {
    if runes == "" then [] else [Head(runes, limit)] + Pieces(Rest(runes, limit), limit)
  }

  function Joined(pieces: seq<Piece>): string
  {
    if pieces == [] then "" else pieces[0].chunk + pieces[0].gap + Joined(pieces[1..])
  }

  /** What is left of the content when piece i is cut. */
  function Remaining(pieces: seq<Piece>, i: nat): string
    requires i <= |pieces|
  {
    Joined(pieces[i..])
  }

  /** Everything the splitter promises of its pieces. */
  ghost predicate WellSplit(runes: string, limit: nat, pieces: seq<Piece>)
  {
    && Joined(pieces) == runes
    && (forall i :: 0 <= i < |pieces| ==> 1 <= |pieces[i].chunk| <= limit)
    && (forall i :: 0 < i < |pieces| ==> !IsDropped(pieces[i].chunk[0]))
    && (forall i :: 0 <= i < |pieces| ==> forall c <- pieces[i].gap :: IsDropped(c))
    && (forall i :: 0 <= i < |pieces| ==> IsCut(Remaining(pieces, i), limit, |pieces[i].chunk|))
  }

  /** Putting one more piece in front. */
  lemma WellSplitCons(runes: string, limit: nat, head: Piece, rest: string, tail: seq<Piece>)
    requires WellSplit(rest, limit, tail) && runes == head.chunk + head.gap + rest
    requires 1 <= |head.chunk| <= limit && IsCut(runes, limit, |head.chunk|)
    requires (forall c <- head.gap :: IsDropped(c)) && (rest != "" ==> !IsDropped(rest[0]))
    ensures WellSplit(runes, limit, [head] + tail)
  {
    var all := [head] + tail;
    assert all[1..] == tail && all[0..] == all;
    if tail != [] {
      assert rest == tail[0].chunk + tail[0].gap + Joined(tail[1..]);
      assert rest[0] == tail[0].chunk[0];
    }
    forall i | 0 <= i < |all| ensures IsCut(Remaining(all, i), limit, |all[i].chunk|) {
      if i > 0 {
        assert all[i..] == tail[i - 1..];
        assert IsCut(Remaining(tail, i - 1), limit, |tail[i - 1].chunk|);
      }
    }
    forall i | 0 < i < |all| ensures !IsDropped(all[i].chunk[0]) {
      if i > 1 { assert !IsDropped(tail[i - 1].chunk[0]); }
    }
  }

  lemma HeadIsWellCut(runes: string, limit: nat)
    requires limit > 0 && runes != ""
    ensures var head, rest := Head(runes, limit), Rest(runes, limit);
      && runes == head.chunk + head.gap + rest
      && 1 <= |head.chunk| <= limit && IsCut(runes, limit, |head.chunk|)
      && (forall c <- head.gap :: IsDropped(c)) && (rest != "" ==> !IsDropped(rest[0]))
  {
    var cut, rest := Cut(runes, limit), Rest(runes, limit);
    CutBounds(runes, limit);
    CutIsTheCut(runes, limit, cut);
    var tail := runes[cut..];
    SkipDroppedShape(tail);
    hide IsCut;
    hide Cut;
    hide SkipDropped;
    hide IsDropped;
    var gap := runes[cut..|runes| - |rest|];
    assert gap == tail[..|tail| - |rest|];
    assert runes == runes[..cut] + gap + rest;
  }

  /**
   The chunks interleaved with dropped whitespace give the content back, each has 1..limit runes, each
   after the first starts with no droppable rune, and each cut is the promised one for what was left.
   */
  lemma {:induction false} PiecesAreWellSplit(runes: string, limit: nat)
    requires limit > 0
    ensures WellSplit(runes, limit, Pieces(runes, limit))
    decreases |runes|
  {
    if runes != "" {
      var head, rest := Head(runes, limit), Rest(runes, limit);
      HeadIsWellCut(runes, limit);
      PiecesAreWellSplit(rest, limit);
      hide IsCut;
      hide WellSplit;
      hide Head;
      hide Pieces;
      WellSplitCons(runes, limit, head, rest, Pieces(rest, limit));
    }
  }

  /** No other list of pieces keeps the promises: the split is determined by them. */
  lemma {:induction false} SplitIsDetermined(runes: string, limit: nat, pieces: seq<Piece>)
    requires limit > 0 && WellSplit(runes, limit, pieces)
    ensures pieces == Pieces(runes, limit)
    decreases |pieces|
  {
    if pieces == [] {
    } else {
      var head, tail := pieces[0], pieces[1..];
      assert pieces[0..] == pieces;
      CutIsTheCut(runes, limit, |head.chunk|);
      var rest := Joined(tail);
      assert runes == head.chunk + (head.gap + rest);
      assert runes[|head.chunk|..] == head.gap + rest;
      assert WellSplit(rest, limit, tail) by {
        forall i | 0 <= i < |tail| ensures IsCut(Remaining(tail, i), limit, |tail[i].chunk|) {
          assert tail[i..] == pieces[i + 1..];
        }
        forall i | 0 <= i < |tail| ensures 1 <= |tail[i].chunk| <= limit && (forall c <- tail[i].gap :: IsDropped(c)) {
          assert tail[i] == pieces[i + 1];
        }
        forall i | 0 < i < |tail| ensures !IsDropped(tail[i].chunk[0]) {
          assert tail[i] == pieces[i + 1];
        }
      }
      if tail != [] {
        assert tail[0] == pieces[1];
        assert rest[0] == tail[0].chunk[0];
      }
      SkipExactly(head.gap, rest);
      SplitIsDetermined(rest, limit, tail);
    }
  }

  lemma {:induction false} SkipExactly(gap: string, rest: string)
    requires forall c <- gap :: IsDropped(c)
    requires rest != "" ==> !IsDropped(rest[0])
    ensures SkipDropped(gap + rest) == rest
  {
    if gap != "" {
      assert (gap + rest)[1..] == gap[1..] + rest;
      assert gap[0] in gap;
      SkipExactly(gap[1..], rest);
    } else {
      assert gap + rest == rest;
    }
  }

  /** The chunk contents the worker sends. */
  function Chunks(message: Outbound, maxLength: int): (chunks: seq<Outbound>)
  {
    if maxLength <= 0 || |message.content| <= maxLength then [message]
    else
      var pieces := Pieces(message.content, maxLength);
      seq(|pieces|, i requires 0 <= i < |pieces| => message.(content := pieces[i].chunk))
  }

  lemma ChunksExist(message: Outbound, maxLength: int)
    ensures Chunks(message, maxLength) != []
    ensures forall c <- Chunks(message, maxLength) :: c == message.(content := c.content)
    ensures maxLength > 0 ==> forall c <- Chunks(message, maxLength) :: |c.content| <= maxLength
  {
    if maxLength > 0 {
      PiecesAreWellSplit(message.content, maxLength);
    }
  }

  /** What is sent to a platform with a limit stays within it; to another platform the message goes as it is. */
  lemma ChunksFitPlatform(message: Outbound, kind: string)
    ensures var chunks := Chunks(message, MaxMessageLength(kind));
      && (kind == "telegram" ==> forall c <- chunks :: |c.content| <= 4000)
      && (kind == "dingtalk" ==> forall c <- chunks :: |c.content| <= 20000)
      && (kind == "wecom" || kind == "wecom_app" || kind == "wecom_aibot" ==> forall c <- chunks :: |c.content| <= 2048)
      && (kind == "telegram" && |message.content| <= 4000 ==> chunks == [message])
      && (kind == "dingtalk" && |message.content| <= 20000 ==> chunks == [message])
      && (kind == "wecom" || kind == "wecom_app" || kind == "wecom_aibot" ==>
            |message.content| <= 2048 ==> chunks == [message])
      && (kind !in {"telegram", "dingtalk", "wecom", "wecom_app", "wecom_aibot"} ==> chunks == [message])
  {
    ChunksExist(message, MaxMessageLength(kind));
  }

  method SplitOutbound(message: Outbound, maxLength: int) returns (chunks: seq<Outbound>)
    ensures chunks == Chunks(message, maxLength)
  {
    if maxLength <= 0 || |message.content| <= maxLength {
      return [message];
    }
    ghost var pieces := Pieces(message.content, maxLength);
    var runes := message.content;
    chunks := [];
    assert pieces[0..] == pieces;
    while |runes| > 0
      invariant |chunks| <= |pieces|
      invariant pieces[|chunks|..] == Pieces(runes, maxLength)
      invariant forall i :: 0 <= i < |chunks| ==> chunks[i] == message.(content := pieces[i].chunk)
      decreases |runes|
    {
      ghost var before := runes;
      var end := FindEnd(runes, maxLength);
      CutBounds(runes, maxLength);
      chunks := chunks + [message.(content := runes[..end])];
      runes := runes[end..];
      ghost var tail := runes;
      while |runes| > 0 && (runes[0] == ' ' || runes[0] == '\t' || runes[0] == '\n' || runes[0] == '\r')
        invariant SkipDropped(runes) == SkipDropped(tail)
        invariant |runes| <= |tail|
        decreases |runes|
      {
        runes := runes[1..];
      }
      assert runes == Rest(before, maxLength);
      assert pieces[|chunks| - 1..][1..] == pieces[|chunks|..];
    }
  }

  /** The inner loop: look for a boundary from the limit downwards. */
  method FindEnd(runes: string, maxLength: nat) returns (end: nat)
    requires maxLength > 0 && runes != ""
    ensures end == Cut(runes, maxLength)
  {
    end := if |runes| < maxLength then |runes| else maxLength;
    if end < |runes| {
      var index := end;
      while index > 0
        invariant 0 <= index <= end == maxLength
        invariant CutBelow(runes, maxLength, index) == CutBelow(runes, maxLength, maxLength)
      {
        if runes[index - 1] != '\n' && runes[index - 1] != ' ' && runes[index - 1] != '\t' {
          index := index - 1;
          continue;
        }
        if end - index < maxLength / 4 {
          index := index - 1;
          continue;
        }
        assert IsCandidate(runes, maxLength, index);
        return index;
      }
    }
  }
}
