/** Scatter/gather writing that resumes after short writes, ipc/io_ext.cpp. */
module ScatterWrite {
  import opened Chunks

  const IOV_MAX := 1024

  /** What one writev answers: at least one byte if there is one to write, or an error. */
  datatype Answer = Wrote(n: nat) | Failed

  /** Splitting before the `i`-th vector, and before and behind it. */
  lemma ConcatSplit(iov: seq<Bytes>, i: nat)
    requires i < |iov|
    ensures Concat(iov) == Concat(iov[..i]) + (iov[i] + Concat(iov[i + 1..]))
    ensures Concat(iov[i..]) == iov[i] + Concat(iov[i + 1..])
    ensures |Concat(iov[..i + 1])| == |Concat(iov[..i])| + |iov[i]|
  {
    assert iov == iov[..i] + iov[i..];
    ConcatParts(iov[..i], iov[i..]);
    assert iov[i..][1..] == iov[i + 1..];
    assert iov[..i + 1] == iov[..i] + [iov[i]];
    ConcatParts(iov[..i], [iov[i]]);
    assert Concat([iov[i]]) == iov[i] + Concat([iov[i]][1..]) && [iov[i]][1..] == [];
  }

  /** get_iov_tran_index: the vector in which byte `trans` lies, and how much of it comes before that byte. */
  method GetIovTranIndex(iov: seq<Bytes>, trans: nat) returns (i: nat, tran: nat)
    ensures trans < |Concat(iov)| ==> i < |iov| && tran < |iov[i]| && |Concat(iov[..i])| + tran == trans
    ensures trans >= |Concat(iov)| ==> i == |iov|
  {
    var cnt := 0;
    i, tran := 0, 0;
    while i < |iov|
      invariant i <= |iov| && cnt == |Concat(iov[..i])| <= trans
    {
      ConcatSplit(iov, i);
      cnt := cnt + |iov[i]|;
      if trans < cnt {
        tran := |iov[i]| - (cnt - trans);
        return;
      }
      i := i + 1;
    }
    assert iov[..i] == iov;
  }

  /** The vectors from `i` on hold the bytes from `done` on. */
  ghost predicate Resumes(vec: seq<Bytes>, iov: seq<Bytes>, i: nat, done: nat) {
    && |vec| == |iov| && i <= |iov| && done <= |Concat(iov)|
    && (forall j :: i < j < |iov| ==> vec[j] == iov[j])
    && Concat(vec[i..]) == Concat(iov)[done..]
  }

  /** Where writing resumes: in the vector of the first byte that is left, from that byte on. */
  lemma ResumesAt(vec: seq<Bytes>, iov: seq<Bytes>, i: nat, tran: nat, done: nat)
    requires |vec| == |iov| && i < |iov| && tran < |iov[i]| && |Concat(iov[..i])| + tran == done < |Concat(iov)|
    requires forall j :: i < j < |iov| ==> vec[j] == iov[j]
    ensures Resumes(vec[i := iov[i][tran..]], iov, i, done)
  {
    var vec' := vec[i := iov[i][tran..]];
    assert vec'[i + 1..] == iov[i + 1..];
    ConcatSplit(iov, i);
    ConcatSplit(vec', i);
  }

  /** A later byte lies in the same vector or a later one. */
  lemma {:induction false} IndexGrows(iov: seq<Bytes>, i: nat, j: nat)
    requires j <= i <= |iov|
    ensures |Concat(iov[..j])| <= |Concat(iov[..i])|
  {
    assert iov[..i] == iov[..j] + iov[j..i];
    ConcatParts(iov[..j], iov[j..i]);
  }

  /** The vectors that are taken apart, and how many bytes there are. */
  method Copy(iov: seq<Bytes>) returns (vec: array<Bytes>, cnt: nat)
    ensures fresh(vec) && vec[..] == iov && cnt == |Concat(iov)|
  {
    vec, cnt := new Bytes[|iov|], 0;
    for k := 0 to |iov|
      invariant vec[..k] == iov[..k] && cnt == |Concat(iov[..k])|
    {
      vec[k] := iov[k];
      cnt := cnt + |iov[k]|;
      ConcatSplit(iov, k);
    }
    assert iov[..|iov|] == iov;
  }

  /** Behind a short write: go to the vector of the first byte that is left, and take off what came before it. */
  method Resume(vec: array<Bytes>, iov: seq<Bytes>, before: nat, done: nat) returns (i: nat)
    requires vec.Length == |iov| && before <= |iov| && |Concat(iov[..before])| <= done < |Concat(iov)|
    requires forall j :: before < j < |iov| ==> vec[j] == iov[j]
    modifies vec
    ensures Resumes(vec[..], iov, i, done) && |Concat(iov[..i])| <= done
  {
    var tran;
    i, tran := GetIovTranIndex(iov, done);
    if i < before {
      ConcatSplit(iov, i);
      IndexGrows(iov, before, i + 1);
    }
    ResumesAt(vec[..], iov, i, tran, done);
    vec[i] := iov[i][tran..];
  }

  /** How many of `all` bytes are written by one write after the other, until one fails or all are out. */
  function Goes(answers: seq<Answer>, all: nat): (n: nat)
    ensures n <= all
    decreases |answers|
  {
    if all == 0 || answers == [] || answers[0] == Failed then 0
    else
      var k := Granted(answers[0].n, all, all);
      k + Goes(answers[1..], all - k)
  }

  lemma GoesNext(answers: seq<Answer>, turn: nat, all: nat)
    requires turn <= |answers| && all > 0
    ensures turn == |answers| || answers[turn] == Failed ==> Goes(answers[turn..], all) == 0
    ensures turn < |answers| && answers[turn].Wrote? ==>
              var k := Granted(answers[turn].n, all, all);
              Goes(answers[turn..], all) == k + Goes(answers[turn + 1..], all - k)
  {
    hide Granted;
    var s := answers[turn..];
    assert turn < |answers| ==> s[0] == answers[turn] && s[1..] == answers[turn + 1..];
  }

  lemma GoesNowhere(answers: seq<Answer>)
    ensures Goes(answers, 0) == 0
  {
  }

  /** Short writes alone keep nothing back, if there are enough of them. */
  lemma {:induction false} GoesOut(answers: seq<Answer>, all: nat)
    requires |answers| >= all && forall k :: 0 <= k < |answers| ==> answers[k].Wrote?
    ensures Goes(answers, all) == all
    decreases |answers|
  {
    if all > 0 { GoesOut(answers[1..], all - Granted(answers[0].n, all, all)); }
  }

  /**
   writevn: whatever the writes come short by, the bytes written are a prefix of the vectors' bytes, each once
   and in order, as many as the writes up to the first failure take; the answer is true exactly if they are all of
   them, and without any byte to write if the one write there is does not fail.
  */
  method Writevn(iov: seq<Bytes>, answers: seq<Answer>) returns (ok: bool, tran: int, sent: Bytes)
    ensures |iov| > IOV_MAX ==> !ok && sent == []
    ensures |iov| <= IOV_MAX ==> sent == Concat(iov)[..Goes(answers, |Concat(iov)|)]
    ensures |iov| <= IOV_MAX ==>
      (ok <==> sent == Concat(iov) && (sent == [] ==> answers != [] && answers[0].Wrote?))
    ensures tran == if ok then |sent| else -1
  {
    hide Goes, Granted;
    GoesNowhere(answers);
    sent := [];
    if |iov| > IOV_MAX {
      return false, -1, sent;
    }
    var vec, allCnt := Copy(iov);
    assert vec[0..] == vec[..] == iov == iov[0..] && iov[..0] == [] && answers[0..] == answers;
    ghost var all := Concat(iov);
    var i: nat, allTran, turn := 0, 0, 0;
    while true
      invariant allTran == |sent| && sent <= all && turn <= allTran
      invariant allCnt == |all| && (allTran < allCnt || (turn == 0 && sent == []))
      invariant turn <= |answers| && Goes(answers, allCnt) == allTran + Goes(answers[turn..], allCnt - allTran)
      invariant Resumes(vec[..], iov, i, allTran) && |Concat(iov[..i])| <= allTran
      decreases |answers| - turn
    {
      if allTran < allCnt { GoesNext(answers, turn, allCnt - allTran); }
      if turn >= |answers| || answers[turn] == Failed {
        return false, -1, sent;
      }
      var ret := Granted(answers[turn].n, allCnt - allTran, allCnt - allTran);
      turn := turn + 1;
      if ret == 0 {
        break;
      }
      sent := sent + Concat(vec[i..])[..ret];
      allTran := allTran + ret;
      assert sent == all[..allTran];
      if allTran == allCnt {
        break;
      }
      i := Resume(vec, iov, i, allTran);
    }
    return allTran == allCnt, allTran, sent;
  }
}
