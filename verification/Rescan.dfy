/** Logs that are read whole, line by line, on every change: how the events of a
    growing file relate, wherever a reading cut its last line. */
module Rescan {
  import opened Types
  import opened TailScan

  /** The lines ReadBytes hands out: the last one may lack its newline. */
  function Pieces(b: Bytes): seq<Bytes>
    decreases |b|
  {
    if b == [] then []
    else
      var n := LineLength(b);
      if n == 0 then [b] else [b[..n]] + Pieces(b[n..])
  }

  /** Lines that do not decode are skipped. */
  function Decoded<E>(decode: Bytes -> Option<E>, pieces: seq<Bytes>): seq<E> {
    if pieces == [] then []
    else (if decode(pieces[0]).Some? then [decode(pieces[0]).value] else []) + Decoded(decode, pieces[1..])
  }

  function Events<E>(decode: Bytes -> Option<E>, b: Bytes): seq<E> { Decoded(decode, Pieces(b)) }

  /** No strict prefix of a line decodes to something else than the line does: an
      object decodes only once its closing brace is there, and a newline after it
      changes nothing. */
  predicate PieceWritten<E(==)>(decode: Bytes -> Option<E>, piece: Bytes) {
    forall k | 0 <= k < |piece| :: decode(piece[..k]).None? || decode(piece[..k]) == decode(piece)
  }

  predicate WellWritten<E(==)>(decode: Bytes -> Option<E>, b: Bytes) {
    forall i | 0 <= i < |Pieces(b)| :: PieceWritten(decode, Pieces(b)[i])
  }

  lemma WrittenRest<E>(decode: Bytes -> Option<E>, b: Bytes)
    requires WellWritten(decode, b) && b != []
    ensures var n := LineLength(b);
            && PieceWritten(decode, if n == 0 then b else b[..n])
            && (n > 0 ==> WellWritten(decode, b[n..]))
  {
    var n := LineLength(b);
    assert PieceWritten(decode, Pieces(b)[0]);
    if n > 0 {
      forall i | 0 <= i < |Pieces(b[n..])| ensures PieceWritten(decode, Pieces(b[n..])[i]) {
        assert Pieces(b)[i + 1] == Pieces(b[n..])[i];
      }
    }
  }

  lemma {:induction false} LineSurvives(b: Bytes, more: Bytes)
    requires LineLength(b) > 0
    ensures LineLength(b + more) == LineLength(b)
    decreases |b|
  {
    if b[0] != '\n' {
      assert (b + more)[1..] == b[1..] + more;
      LineSurvives(b[1..], more);
    }
  }

  /** A partial last line becomes a prefix of the line it grows into. */
  lemma {:induction false} LineGrows(b: Bytes, more: Bytes)
    requires LineLength(b) == 0
    ensures LineLength(b + more) == 0 || LineLength(b + more) > |b|
    decreases |b|
  {
    if b == [] {
      assert b + more == more;
    } else {
      assert (b + more)[1..] == b[1..] + more;
      LineGrows(b[1..], more);
    }
  }

  lemma EventsUnfold<E>(decode: Bytes -> Option<E>, b: Bytes)
    requires b != []
    ensures var n := LineLength(b); var line := if n == 0 then b else b[..n];
            Events(decode, b) == (if decode(line).Some? then [decode(line).value] else []) + Events(decode, b[|line|..])
  {
    var n := LineLength(b);
    var line := if n == 0 then b else b[..n];
    assert Pieces(b) == [line] + Pieces(b[|line|..]);
  }

  /** A file that grows only adds events at the end, wherever the cut falls. */
  lemma {:induction false} EventsPrefix<E>(decode: Bytes -> Option<E>, b: Bytes, more: Bytes)
    requires WellWritten(decode, b + more)
    ensures Events(decode, b) <= Events(decode, b + more)
    decreases |b|
  {
    if b != [] {
      var n, c := LineLength(b), b + more;
      EventsUnfold(decode, b);
      EventsUnfold(decode, c);
      WrittenRest(decode, c);
      if n > 0 {
        LineSurvives(b, more);
        AppendSlices(b, more, n);
        EventsPrefix(decode, b[n..], more);
      } else {
        LineGrows(b, more);
        LastLine(decode, b, more);
      }
    }
  }

  lemma LastLine<E>(decode: Bytes -> Option<E>, b: Bytes, more: Bytes)
    requires b != [] && LineLength(b) == 0
    requires LineLength(b + more) == 0 || LineLength(b + more) > |b|
    requires var c := b + more; PieceWritten(decode, if LineLength(c) == 0 then c else c[..LineLength(c)])
    ensures Events(decode, b) <= Events(decode, b + more)
  {
    var c := b + more;
    var line := if LineLength(c) == 0 then c else c[..LineLength(c)];
    assert line[..|b|] == b;
    EventsUnfold(decode, b);
    EventsUnfold(decode, c);
    assert b[|b|..] == [] && Events(decode, []) == [];
    assert |b| < |line| || b == line;
    assert PieceWritten(decode, line);
    assert |b| < |line| ==> decode(line[..|b|]).None? || decode(line[..|b|]) == decode(line);
  }

  // ----- what is read ---------------------------------------------------------------

  /** The piece is a line, or a last one without its newline. */
  ghost predicate IsPiece(p: Bytes) { p != [] && forall k | 0 <= k < |p| - 1 :: p[k] != '\n' }

  lemma PiecesUnfold(b: Bytes)
    requires b != []
    ensures var n := LineLength(b);
            Pieces(b) == if n == 0 then [b] else [b[..n]] + Pieces(b[n..])
    ensures LineLength(b) == 0 ==> IsPiece(b)
    ensures LineLength(b) > 0 ==> IsPiece(b[..LineLength(b)]) && IsWholeLine(b[..LineLength(b)])
  {
    if LineLength(b) == 0 {
      forall k | 0 <= k < |b| ensures b[k] != '\n' { LineLengthIsFirst(b, k); }
    } else {
      FirstIsWhole(b);
    }
  }

  ghost predicate ArePieces(ps: seq<Bytes>) {
    && (forall i | 0 <= i < |ps| :: IsPiece(ps[i]))
    && forall i | 0 <= i < |ps| - 1 :: IsWholeLine(ps[i])
  }

  lemma OneMorePiece(p: Bytes, ps: seq<Bytes>)
    requires IsPiece(p) && IsWholeLine(p) && ArePieces(ps)
    ensures ArePieces([p] + ps) && Joined([p] + ps) == p + Joined(ps)
  {
    var all := [p] + ps;
    assert all[1..] == ps;
    forall i | 0 <= i < |all| ensures IsPiece(all[i]) { if i > 0 { assert all[i] == ps[i - 1]; } }
    forall i | 0 <= i < |all| - 1 ensures IsWholeLine(all[i]) { if i > 0 { assert all[i] == ps[i - 1]; } }
  }

  /** The pieces are the whole file, each a line; only the last may lack its newline. */
  lemma {:induction false} PiecesAre(b: Bytes)
    ensures Joined(Pieces(b)) == b && ArePieces(Pieces(b))
    decreases |b|
  {
    if b != [] {
      var n := LineLength(b);
      PiecesUnfold(b);
      if n == 0 {
        assert Joined([b]) == b + Joined([b][1..]) == b;
      } else {
        PiecesAre(b[n..]);
        OneMorePiece(b[..n], Pieces(b[n..]));
        assert b == b[..n] + b[n..];
      }
    }
  }

  ghost predicate DecodedAt<E>(decode: Bytes -> Option<E>, pieces: seq<Bytes>, at: seq<nat>, events: seq<E>) {
    && |at| == |events|
    && (forall k | 0 <= k < |at| :: at[k] < |pieces| && decode(pieces[at[k]]) == Some(events[k]))
    && (forall j, k | 0 <= j < k < |at| :: at[j] < at[k])
    && (forall i: nat | i < |pieces| && decode(pieces[i]).Some? :: i in at)
  }

  lemma {:induction false} DecodedLast<E>(decode: Bytes -> Option<E>, pieces: seq<Bytes>, p: Bytes)
    ensures Decoded(decode, pieces + [p])
            == Decoded(decode, pieces) + (if decode(p).Some? then [decode(p).value] else [])
    decreases |pieces|
  {
    if pieces == [] {
      assert pieces + [p] == [p] && [p][1..] == [];
    } else {
      var last := if decode(p).Some? then [decode(p).value] else [];
      var head := if decode(pieces[0]).Some? then [decode(pieces[0]).value] else [];
      assert (pieces + [p])[1..] == pieces[1..] + [p];
      DecodedLast(decode, pieces[1..], p);
      assert head + (Decoded(decode, pieces[1..]) + last) == head + Decoded(decode, pieces[1..]) + last;
    }
  }

  /** The events are those of the pieces that decode, in their order. */
  lemma {:induction false} DecodedAre<E>(decode: Bytes -> Option<E>, pieces: seq<Bytes>) returns (at: seq<nat>)
    ensures DecodedAt(decode, pieces, at, Decoded(decode, pieces))
    decreases |pieces|
  {
    at := [];
    if pieces != [] {
      var n := |pieces| - 1;
      var init, p := pieces[..n], pieces[n];
      assert pieces == init + [p];
      var before := DecodedAre(decode, init);
      DecodedLast(decode, init, p);
      at := before + if decode(p).Some? then [n] else [];
      assert forall i | 0 <= i < n :: init[i] == pieces[i];
      forall i: nat | i < |pieces| && decode(pieces[i]).Some? ensures i in at {
        if i < n { assert i in before; } else { assert at[|before|] == i; }
      }
    }
  }
}
