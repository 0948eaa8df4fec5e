/** One block of a ReaderWriterQueue: a circular buffer that wastes one slot. */
module RingBlock {

  /** A slot of raw block memory: the bits it holds and whether a constructed element lives there. */
  datatype Cell<+T> = Cell(live: bool, value: T)

  /** `front` and `localTail` are written by the consumer, the other indices by the producer. */
  datatype Block<+T> =
    Block(front: nat, localTail: nat, tail: nat, localFront: nat, next: nat, cells: seq<Cell<T>>)
  {
    function Size(): nat { |cells| }

    ghost predicate InBounds() {
      && 2 <= Size()
      && front < Size() && tail < Size()
      && localTail < Size() && localFront < Size()
    }

    /** Number of occupied slots. */
    ghost function Used(): nat
      requires InBounds()
    {
      Dist(front, tail, Size())
    }

    ghost predicate IsEmpty() requires InBounds() { front == tail }

    ghost predicate IsFull() requires InBounds() { Used() == Size() - 1 }

    /** The elements in the order in which they will leave. */
    ghost function Contents(): (c: seq<T>)
      requires InBounds()
      ensures |c| == Used()
      ensures forall i | 0 <= i < |c| :: c[i] == cells[Wrap(front + i, Size())].value
    {
      seq(Used(), i requires 0 <= i < Used() => cells[Wrap(front + i, Size())].value)
    }

    /** The consumer's shadow of `tail` is at or behind the real one. */
    ghost predicate TailShadowOk() requires InBounds() {
      Dist(front, localTail, Size()) <= Used()
    }

    /** The producer's shadow of `front` is at or behind the real one. */
    ghost predicate FrontShadowOk() requires InBounds() {
      Dist(localFront, front, Size()) + Used() < Size()
    }

    /** The producer's shadow shows a free slot. */
    ghost predicate ShadowRoom() requires InBounds() {
      Dist(localFront, front, Size()) + Used() + 1 < Size()
    }

    /** Exactly the occupied slots hold constructed elements, except that the front one may already
        have been moved out and the one at `tail` may already have been constructed. */
    ghost predicate Lifetimes(frontTaken: bool, tailBuilt: bool)
      requires InBounds()
    {
      forall j | 0 <= j < Size() ::
        cells[j].live <==>
        || (Dist(front, j, Size()) < Used() && !(frontTaken && j == front))
        || (tailBuilt && j == tail)
    }
  }

  /** `(i + 1) & sizeMask` for a power-of-two size. */
  function Next(i: nat, size: nat): (r: nat)
    requires i < size
    ensures r < size && r == (i + 1) % size
  {
    if i + 1 == size then 0 else i + 1
  }

  function Wrap(i: nat, size: nat): (r: nat)
    requires i < 2 * size
    ensures r < size
  {
    if i < size then i else i - size
  }

  /** How many steps of `Next` lead from `f` to `t`. */
  function Dist(f: nat, t: nat, size: nat): (r: nat)
    requires f < size && t < size
    ensures r < size && (r == 0 <==> f == t) && Wrap(f + r, size) == t
  {
    if f <= t then t - f else t + size - f
  }

  lemma PublishAppends<T>(b: Block<T>)
    requires b.InBounds() && b.Used() + 1 < b.Size()
    ensures var b' := b.(tail := Next(b.tail, b.Size()));
            && b'.InBounds() && b'.Used() == b.Used() + 1
            && b'.Contents() == b.Contents() + [b.cells[b.tail].value]
  {
    var b' := b.(tail := Next(b.tail, b.Size()));
    var c, c' := b.Contents(), b'.Contents();
    forall i | 0 <= i < |c'| ensures c'[i] == (c + [b.cells[b.tail].value])[i] {
    }
  }

  lemma TakeRemoves<T>(b: Block<T>)
    requires b.InBounds() && !b.IsEmpty()
    ensures var b' := b.(front := Next(b.front, b.Size()));
            && b'.InBounds() && b'.Used() + 1 == b.Used()
            && b.Contents() == [b.cells[b.front].value] + b'.Contents()
  {
    var b' := b.(front := Next(b.front, b.Size()));
    var c, c' := b.Contents(), [b.cells[b.front].value] + b'.Contents();
    forall i | 0 <= i < |c| ensures c[i] == c'[i] {
      if i > 0 {
        assert Wrap(b.front + i, b.Size()) == Wrap(b'.front + (i - 1), b.Size());
        assert c'[i] == b'.Contents()[i - 1];
      }
    }
  }

  /** Building an element in the slot at `tail` touches nothing that is queued. */
  lemma BuildKeepsContents<T>(b: Block<T>, e: T)
    requires b.InBounds()
    ensures var b' := b.(cells := b.cells[b.tail := Cell(true, e)]);
            && b'.InBounds() && b'.Contents() == b.Contents()
  {
    var b' := b.(cells := b.cells[b.tail := Cell(true, e)]);
    forall i | 0 <= i < b.Used() ensures b'.Contents()[i] == b.Contents()[i] {
    }
  }

  /** Moving out the front element ends its lifetime and leaves its bits. */
  lemma MoveOutKeepsContents<T>(b: Block<T>)
    requires b.InBounds()
    ensures var b' := b.(cells := b.cells[b.front := b.cells[b.front].(live := false)]);
            && b'.InBounds() && b'.Contents() == b.Contents()
  {
    var b' := b.(cells := b.cells[b.front := b.cells[b.front].(live := false)]);
    forall i | 0 <= i < b.Used() ensures b'.Contents()[i] == b.Contents()[i] {
    }
  }

  // ---------------------------------------------------------------- shadows and lifetimes

  lemma PublishShadows<T>(b: Block<T>)
    requires b.InBounds() && b.ShadowRoom()
    ensures var b' := b.(tail := Next(b.tail, b.Size()));
            b'.InBounds() && b'.FrontShadowOk() && (b.TailShadowOk() ==> b'.TailShadowOk())
  {
  }

  lemma TakeShadows<T>(b: Block<T>)
    requires b.InBounds() && b.front != b.localTail && b.TailShadowOk()
    ensures var b' := b.(front := Next(b.front, b.Size()));
            && b'.InBounds() && b'.TailShadowOk()
            && (b.FrontShadowOk() ==> b'.FrontShadowOk()) && (b.ShadowRoom() ==> b'.ShadowRoom())
  {
  }

  lemma PublishLifetimes<T>(b: Block<T>, taken: bool)
    requires b.InBounds() && b.Used() + 1 < b.Size() && (taken ==> !b.IsEmpty())
    requires b.Lifetimes(taken, true)
    ensures var b' := b.(tail := Next(b.tail, b.Size()));
            b'.InBounds() && b'.Lifetimes(taken, false)
  {
  }

  lemma TakeLifetimes<T>(b: Block<T>, built: bool)
    requires b.InBounds() && !b.IsEmpty() && b.Lifetimes(true, built)
    ensures var b' := b.(front := Next(b.front, b.Size()));
            b'.InBounds() && b'.Lifetimes(false, built)
  {
    var b' := b.(front := Next(b.front, b.Size()));
    forall j | 0 <= j < b.Size()
      ensures b'.cells[j].live <==> Dist(b'.front, j, b.Size()) < b'.Used() || (built && j == b.tail)
    {
      if j == b.front {
        assert Dist(b'.front, j, b.Size()) == b.Size() - 1;
      } else {
        assert Dist(b'.front, j, b.Size()) + 1 == Dist(b.front, j, b.Size());
      }
    }
  }
}
