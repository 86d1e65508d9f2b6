/** The iterator-name allocator of CodeGenerator: a cursor into a 26-letter
    table that `uniqueIteratorName` reads and advances and
    `resetIteratorPos` puts back. */
module Iterators {

  /** CodeGenerator.iterators, one letter per entry. */
  const Alphabet: string := "abcdefghijklmnopqrstuvwxyz"

  /** The value CodeGenerator.iteratorPos starts at and is reset to: the
      position of "i". */
  const InitialIteratorPos: nat := 8

  /** c repeated n times. */
  function Repeat(c: char, n: nat): string {
    seq(n, _ => c)
  }

  /** Appending c to c repeated n times repeats it n + 1 times. */
  lemma {:induction false} RepeatOneMore(c: char, n: nat)
    ensures Repeat(c, n) + [c] == Repeat(c, n + 1)
  {
    assert |Repeat(c, n) + [c]| == n + 1;
  }

  /** The name issued at cursor position pos: the letter at pos % 26,
      pos / 26 + 1 times. */
  function IteratorName(pos: nat): string {
    Repeat(Alphabet[pos % 26], pos / 26 + 1)
  }

  /** The loop bound `numChars` as the JavaScript code computes it, with `/`
      as division of numbers (not of integers): 1 below 26, pos / 26 + 1 on a
      multiple of 26, and the fraction pos / 26 otherwise. */
  function JsNumChars(pos: nat): real {
    if pos < 26 then 1.0
    else if pos % 26 == 0 then (pos as real) / 26.0 + 1.0
    else (pos as real) / 26.0
  }

  /** The counted loop `for (i = 0; i < numChars; i += 1)` runs exactly
      pos / 26 + 1 times: the fraction pos / 26 is rounded up, and a multiple
      of 26 gets one more. */
  lemma {:induction false} NumCharsLoopCount(pos: nat, i: nat)
    ensures (i as real) < JsNumChars(pos) <==> i < pos / 26 + 1
  {
    var q, r := pos / 26, pos % 26;
    assert pos == 26 * q + r;
    assert (pos as real) / 26.0 == (q as real) + (r as real) / 26.0;
    if i <= q {
      assert (i as real) <= (q as real);
    } else {
      assert (i as real) >= (q as real) + 1.0;
    }
  }

  /** The letters of the table are pairwise distinct. */
  lemma {:induction false} AlphabetDistinct(j: int, k: int)
    requires 0 <= j < 26 && 0 <= k < 26 && j != k
    ensures Alphabet[j] != Alphabet[k]
  {
    AlphabetCodes();
  }

  lemma AlphabetCodes()
    ensures forall j :: 0 <= j < 26 ==> Alphabet[j] as int == 'a' as int + j
  {
    forall j | 0 <= j < 26 ensures Alphabet[j] as int == 'a' as int + j {
      if j < 13 {
        if j < 6 {
          assert j in {0, 1, 2, 3, 4, 5};
        } else {
          assert j in {6, 7, 8, 9, 10, 11, 12};
        }
      } else {
        if j < 19 {
          assert j in {13, 14, 15, 16, 17, 18};
        } else {
          assert j in {19, 20, 21, 22, 23, 24, 25};
        }
      }
    }
  }

  /** Different cursor positions give different names, so no name repeats
      while the cursor only moves forward. */
  lemma {:induction false} IteratorNameInjective(p: nat, q: nat)
    requires IteratorName(p) == IteratorName(q)
    ensures p == q
  {
    assert |IteratorName(p)| == p / 26 + 1;
    assert IteratorName(p)[0] == Alphabet[p % 26];
    assert IteratorName(q)[0] == Alphabet[q % 26];
    if p % 26 != q % 26 {
      AlphabetDistinct(p % 26, q % 26);
    }
  }

  /** From the initial position the names run "i", "j", ..., "z", then
      "aa", "bb". */
  lemma NamesFromReset()
    ensures IteratorName(InitialIteratorPos) == "i"
    ensures IteratorName(InitialIteratorPos + 1) == "j"
    ensures IteratorName(InitialIteratorPos + 17) == "z"
    ensures IteratorName(InitialIteratorPos + 18) == "aa"
    ensures IteratorName(InitialIteratorPos + 19) == "bb"
  {
    assert IteratorName(8) == [Alphabet[8]];
    assert IteratorName(9) == [Alphabet[9]];
    assert IteratorName(25) == [Alphabet[25]];
    assert IteratorName(26) == [Alphabet[0], Alphabet[0]];
    assert IteratorName(27) == [Alphabet[1], Alphabet[1]];
  }

  /** The name for the next position differs from every name issued since
      the last reset. */
  lemma {:induction false} FreshName(issued: seq<string>)
    requires forall k :: 0 <= k < |issued| ==> issued[k] == IteratorName(InitialIteratorPos + k)
    ensures IteratorName(InitialIteratorPos + |issued|) !in issued
  {
    var name := IteratorName(InitialIteratorPos + |issued|);
    if name in issued {
      var k :| 0 <= k < |issued| && issued[k] == name;
      IteratorNameInjective(InitialIteratorPos + k, InitialIteratorPos + |issued|);
    }
  }

  /** Issuing the name for the next position keeps the history in step with
      the positions. */
  lemma {:induction false} IssueExtends(issued: seq<string>, name: string)
    requires forall k :: 0 <= k < |issued| ==> issued[k] == IteratorName(InitialIteratorPos + k)
    requires name == IteratorName(InitialIteratorPos + |issued|)
    ensures forall k :: 0 <= k < |issued + [name]| ==> (issued + [name])[k] == IteratorName(InitialIteratorPos + k)
  {
    forall k | 0 <= k < |issued + [name]| ensures (issued + [name])[k] == IteratorName(InitialIteratorPos + k) {
      if k < |issued| {
        assert (issued + [name])[k] == issued[k];
      }
    }
  }

  /** The allocator's cursor, CodeGenerator.iteratorPos, with the names issued
      since the last reset kept as a ghost history. */
  class IteratorAllocator {
    var iteratorPos: nat
    ghost var issued: seq<string>

    /** The cursor has moved once per issued name since the last reset, and
        each issued name is the one for its position. */
    ghost predicate Valid()
      reads this
    {
      iteratorPos == InitialIteratorPos + |issued| &&
      forall k :: 0 <= k < |issued| ==> issued[k] == IteratorName(InitialIteratorPos + k)
    }

    /** The static initialisation `CodeGenerator.iteratorPos = 8`. */
    constructor ()
      ensures Valid() && iteratorPos == InitialIteratorPos && issued == []
    {
      iteratorPos := InitialIteratorPos;
      issued := [];
    }

    /** `uniqueIteratorName()`: the name for the current position, after
        which the position moves on by one. */
    method UniqueIteratorName() returns (name: string)
      requires Valid()
      modifies this
      ensures Valid()
      ensures name == IteratorName(old(iteratorPos))
      ensures iteratorPos == old(iteratorPos) + 1
      ensures issued == old(issued) + [name]
      ensures name !in old(issued)
    {
      var numChars: real := 1.0;
      var idx := iteratorPos;
      if iteratorPos >= 26 {
        numChars := if iteratorPos % 26 == 0 then (iteratorPos as real) / 26.0 + 1.0
                    else (iteratorPos as real) / 26.0;
        idx := iteratorPos % 26;
      }
      ghost var pos := iteratorPos;
      ghost var count := pos / 26 + 1;
      assert numChars == JsNumChars(pos) && idx == pos % 26;
      FreshName(issued);
      IssueExtends(issued, IteratorName(pos));
      name := "";
      var i: nat := 0;
      NumCharsLoopCount(pos, i);
      while (i as real) < numChars
        invariant i <= count
        invariant name == Repeat(Alphabet[idx], i)
        invariant (i as real) < numChars <==> i < count
        modifies {}
        decreases count - i
      {
        RepeatOneMore(Alphabet[idx], i);
        name := name + [Alphabet[idx]];
        i := i + 1;
        NumCharsLoopCount(pos, i);
      }
      assert i == count;
      assert name == IteratorName(pos);
      iteratorPos := iteratorPos + 1;
      issued := issued + [name];
    }

    /** `resetIteratorPos()`: back to the initial position; a new history
        starts. */
    method ResetIteratorPos()
      modifies this
      ensures Valid()
      ensures iteratorPos == InitialIteratorPos
      ensures issued == []
    {
      iteratorPos := InitialIteratorPos;
      issued := [];
    }
  }

  /** Two calls straight after a reset give "i" and then "j". */
  method ResetThenTwoNames(a: IteratorAllocator) returns (first: string, second: string)
    modifies a
    ensures first == "i" && second == "j"
    ensures a.iteratorPos == InitialIteratorPos + 2
  {
    a.ResetIteratorPos();
    first := a.UniqueIteratorName();
    second := a.UniqueIteratorName();
    NamesFromReset();
  }
}
