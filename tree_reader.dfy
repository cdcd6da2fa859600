/**
 * IonReaderTreeSystem: a streaming cursor over an in-memory value tree.
 *
 * State: the current value `curr`, a one-value lookahead `next`, a sticky end
 * flag `eof`, the enclosing value `parent` with the iterator `iter` over its
 * children, and an Object[] stack that stepIn fills two cells at a time
 * (enclosing value, then iterator), so that the depth is top / 2.
 *
 * The ghost field `frames` is the stack read as (parent, iterator) pairs, and
 * `Pending()` is the sequence of values `next()` will still return at the
 * current level while the tree does not change.
 */
module TreeReader {
  import opened IonValues
  import opened ReaderIterators

  /** UnifiedSymbolTable.UNKNOWN_SID: the field id reported when there is no current value. */
  const UNKNOWN_SID := -1

  /** The length of the stack array a new reader allocates. */
  const INITIAL_STACK_LENGTH := 10

  /** One cell of the Object[] stack: null, a saved enclosing value, or a saved iterator. */
  datatype Slot = Empty | ParentSlot(node: IonNode) | IterSlot(iter: Children)

  /** What one stepIn saved: the enclosing value and the iterator over its children. */
  datatype Frame = Frame(parent: IonNode?, iter: Children?)

  function NodeSlot(n: IonNode?): Slot {
    if n == null then Empty else ParentSlot(n)
  }

  function IterCell(c: Children?): Slot {
    if c == null then Empty else IterSlot(c)
  }

  /** The cast `(IonValue) _stack[i]`. */
  function SlotNode(s: Slot): IonNode? {
    if s.ParentSlot? then s.node else null
  }

  /** The cast `(Iterator<IonValue>) _stack[i]`. */
  function SlotIter(s: Slot): Children? {
    if s.IterSlot? then s.iter else null
  }

  class IonReaderTreeSystem {
    var iter: Children?
    var root: IonNode?
    var parent: IonNode?
    var next: IonNode?
    var curr: IonNode?
    var eof: bool
    var stack: array<Slot>
    var top: nat
    ghost var frames: seq<Frame>

    ghost predicate Valid()
      reads this, stack
    {
      stack.Length >= 2 &&
      top == 2 * |frames| && top <= stack.Length &&
      (forall d :: 0 <= d < |frames| ==>
         stack[2 * d] == NodeSlot(frames[d].parent) && stack[2 * d + 1] == IterCell(frames[d].iter)) &&
      (forall k :: top <= k < stack.Length ==> stack[k] == Empty) &&
      (eof ==> next == null)
    }

    /** The values next() will return at this level, in order, if the tree does not change. */
    ghost function Pending(): seq<IonNode>
      reads this, iter, if iter != null then {iter.parent} else {}
    {
      (if next != null then [next] else []) +
      (if eof || iter == null then [] else iter.Remaining())
    }

    /** The iterator at this level can take its next step (see Children.RelocationTerminates). */
    ghost predicate CanAdvance()
      reads this, iter, if iter != null then {iter.parent} else {}
    {
      iter != null ==> iter.RelocationTerminates()
    }

    constructor (value: IonNode?, ghost ancestors: seq<IonNode>)
      requires value != null && value.kind != DATAGRAM && value.kind.IsContainer() ==>
                 |ancestors| > 0 && ancestors[0] == value && AncestorChain(ancestors)
      ensures Valid() && fresh(stack) && stack.Length == INITIAL_STACK_LENGTH
      ensures frames == [] && curr == null && !eof
      ensures value == null ==>
                iter == null && parent == null && next == null && root == null
      ensures value != null && value.kind == DATAGRAM ==>
                parent == value && root == value && next == null &&
                iter != null && fresh(iter) && iter.parent == value && iter.InSync() &&
                Pending() == if value.isNull then [] else value.contents
      ensures value != null && value.kind != DATAGRAM ==>
                next == value && iter == null && parent == null && Pending() == [value] &&
                root == if value.kind.IsContainer() then ancestors[|ancestors| - 1] else null
    {
      var it: Children? := null;
      var p: IonNode? := null;
      var n: IonNode? := null;
      var r: IonNode? := null;
      if value == null {
        // nothing to read
      } else if value.kind == DATAGRAM {
        p := value;
        r := value;
        it := new Children(value);
      } else {
        n := value;
        if value.kind.IsContainer() {
          r := value;
          ghost var i := 0;
          while r.container != null
            invariant AncestorChain(ancestors)
            invariant 0 <= i < |ancestors| && r == ancestors[i]
            decreases |ancestors| - i
          {
            r := r.container;
            i := i + 1;
          }
          assert i < |ancestors| - 1 ==> ancestors[i].container == ancestors[i + 1];
        }
      }
      iter, parent, next, root := it, p, n, r;
      curr := null;
      eof := false;
      stack := new Slot[INITIAL_STACK_LENGTH](_ => Empty);
      top := 0;
      frames := [];
    }

    /** Saves (parent, iter) in the next two stack cells, doubling the array when it is full. */
    method Push()
      requires Valid()
      modifies this, stack
      ensures Valid()
      ensures frames == old(frames) + [Frame(parent, iter)]
      ensures old(top) + 1 >= old(stack.Length) ==> fresh(stack) && stack.Length == 2 * old(stack.Length)
      ensures old(top) + 1 < old(stack.Length) ==> stack == old(stack)
      ensures forall k :: 0 <= k < old(top) ==> stack[k] == old(stack[k])
      ensures iter == old(iter) && parent == old(parent) && next == old(next) && curr == old(curr)
      ensures eof == old(eof) && root == old(root)
    {
      if top + 1 >= stack.Length {
        Grow();
      }
      ghost var before := stack[..];
      stack[top] := NodeSlot(parent);
      stack[top + 1] := IterCell(iter);
      top := top + 2;
      frames := frames + [Frame(parent, iter)];
      assert forall k :: 0 <= k < top - 2 ==> stack[k] == before[k];
    }

    /** The `_top + 1 >= length` branch of push: a copy of the stack into an array twice as long. */
    method Grow()
      requires Valid()
      modifies this
      ensures Valid() && fresh(stack) && stack.Length == 2 * old(stack.Length)
      ensures forall k :: 0 <= k < old(stack.Length) ==> stack[k] == old(stack[k])
      ensures top == old(top) && frames == old(frames)
      ensures iter == old(iter) && parent == old(parent) && next == old(next) && curr == old(curr)
      ensures eof == old(eof) && root == old(root)
    {
      var oldlen := stack.Length;
      var newlen := oldlen * 2;
      var temp := new Slot[newlen](_ => Empty);
      forall k | 0 <= k < oldlen {
        temp[k] := stack[k];
      }
      stack := temp;
    }

    /** Restores (parent, iter) from the top two stack cells, nulls them, and forgets the end flag. */
    method Pop()
      requires Valid() && top >= 2
      modifies this, stack
      ensures Valid() && stack == old(stack)
      ensures frames == old(frames)[..|old(frames)| - 1]
      ensures Frame(parent, iter) == old(frames)[|old(frames)| - 1]
      ensures !eof
      ensures next == old(next) && curr == old(curr) && root == old(root)
    {
      ghost var last := frames[|frames| - 1];
      assert stack[top - 2] == NodeSlot(last.parent) && stack[top - 1] == IterCell(last.iter);
      top := top - 1;
      iter := SlotIter(stack[top]);
      stack[top] := Empty;  // lets the iterator be garbage collected
      top := top - 1;
      parent := SlotNode(stack[top]);
      stack[top] := Empty;
      // the enclosing level may or may not be at its end: check again
      eof := false;
      frames := frames[..|frames| - 1];
    }

    /** next_helper_system: fills the lookahead if it can, and reports its type. */
    method NextHelperSystem() returns (t: Option<IonType>)
      requires Valid() && CanAdvance()
      modifies this, iter
      ensures Valid() && CanAdvance()
      ensures frames == old(frames) && stack == old(stack) && iter == old(iter) && parent == old(parent)
      ensures curr == old(curr) && root == old(root)
      ensures Pending() == old(Pending())
      ensures t == if Pending() == [] then None else Some(Pending()[0].kind)
      ensures t.Some? ==> next == Pending()[0] && !eof
      ensures t.None? ==> eof
      ensures old(eof) || old(next) != null ==>
                next == old(next) && eof == old(eof) && (iter != null ==> unchanged(iter))
    {
      if eof {
        return None;
      }
      if next != null {
        return Some(next.kind);
      }
      if iter != null {
        var more := iter.HasNext();
        if more {
          next := iter.Next();
        }
      }
      eof := next == null;
      if eof {
        return None;
      }
      t := Some(next.kind);
    }

    method HasNext() returns (b: bool)
      requires Valid() && CanAdvance()
      modifies this, iter
      ensures Valid() && CanAdvance()
      ensures frames == old(frames) && stack == old(stack) && iter == old(iter) && parent == old(parent)
      ensures curr == old(curr) && root == old(root)
      ensures Pending() == old(Pending())
      ensures b <==> Pending() != []
      ensures b ==> next == Pending()[0] && !eof
      ensures !b ==> eof
      ensures old(eof) || old(next) != null ==>
                next == old(next) && eof == old(eof) && (iter != null ==> unchanged(iter))
    {
      var t := NextHelperSystem();
      b := t.Some?;
    }

    method Next() returns (t: Option<IonType>)
      requires Valid() && CanAdvance()
      modifies this, iter
      ensures Valid() && CanAdvance()
      ensures frames == old(frames) && stack == old(stack) && iter == old(iter) && parent == old(parent)
      ensures root == old(root) && next == null
      ensures old(Pending()) == [] ==> t == None && curr == old(curr) && eof
      ensures old(Pending()) != [] ==>
                t == Some(old(Pending())[0].kind) && curr == old(Pending())[0] &&
                Pending() == old(Pending())[1..] && !eof
    {
      if next == null {
        var more := HasNext();
        if !more {
          return None;
        }
      }
      curr := next;
      next := null;
      t := Some(curr.kind);
    }

    method StepIn() returns (r: Outcome<()>)
      requires Valid()
      modifies this, stack
      ensures Valid()
      ensures old(curr) == null || !old(curr).kind.IsContainer() ==>
                r == Thrown(IllegalState) && unchanged(this) && stack == old(stack)
      ensures old(curr) != null && old(curr).kind.IsContainer() ==>
                r == Ok(()) &&
                frames == old(frames) + [Frame(old(parent), old(iter))] &&
                parent == old(curr) && curr == null &&
                iter != null && fresh(iter) && iter.parent == old(curr) && iter.InSync() &&
                iter.Remaining() == (if old(curr).isNull then [] else old(curr).contents)
      ensures stack == old(stack) || fresh(stack)
      // neither the lookahead nor the end flag is reset
      ensures next == old(next) && eof == old(eof) && root == old(root)
    {
      if curr == null || !curr.kind.IsContainer() {
        return Thrown(IllegalState);
      }
      Push();
      parent := curr;
      iter := new Children(curr);
      curr := null;
      r := Ok(());
    }

    method StepOut() returns (r: Outcome<()>)
      requires Valid()
      modifies this, stack
      ensures Valid() && stack == old(stack)
      ensures old(top) < 1 ==> r == Thrown(IllegalState) && unchanged(this)
      ensures old(top) >= 1 ==>
                r == Ok(()) &&
                frames == old(frames)[..|old(frames)| - 1] &&
                Frame(parent, iter) == old(frames)[|old(frames)| - 1] &&
                !eof && next == old(next) && curr == old(curr)
      ensures root == old(root)
    {
      if top < 1 {
        return Thrown(IllegalState);
      }
      Pop();
      r := Ok(());
    }

    function GetDepth(): (d: nat)
      reads this, stack
      requires Valid()
      ensures d == |frames|
    {
      top / 2
    }

    function GetType(): (t: Option<IonType>)
      reads this
      ensures t.None? <==> curr == null
      ensures t.Some? ==> t.value == curr.kind
    {
      if curr == null then None else Some(curr.kind)
    }

    function GetTypeAnnotations(): (r: Outcome<seq<string>>)
      reads this, curr
      ensures curr == null <==> r == Thrown(IllegalState)
      ensures curr != null ==> r == Ok(curr.annotations)
    {
      if curr == null then Thrown(IllegalState) else Ok(curr.annotations)
    }

    /**
     * The ids of the current value's annotations, each looked up in the
     * current value's symbol table by `findSymbol` (SymbolTable.findSymbol).
     */
    method GetTypeAnnotationIds(findSymbol: (SymbolTable, string) -> int) returns (r: Outcome<seq<int>>)
      ensures curr == null ==> r == Thrown(IllegalState)
      ensures curr != null && curr.annotations == [] ==> r == Ok([])
      ensures curr != null && curr.annotations != [] && curr.symbolTable == null ==> r == Thrown(NullPointer)
      ensures curr != null && curr.annotations != [] && curr.symbolTable != null ==>
                r.Ok? && |r.value| == |curr.annotations| &&
                forall i :: 0 <= i < |r.value| ==> r.value[i] == findSymbol(curr.symbolTable, curr.annotations[i])
    {
      var annotations :- GetTypeAnnotations();
      if |annotations| < 1 {
        return Ok([]);
      }
      var ids := new int[|annotations|];
      var sym := curr.symbolTable;
      if sym == null {
        return Thrown(NullPointer);
      }
      for ii := 0 to |annotations|
        invariant forall j :: 0 <= j < ii ==> ids[j] == findSymbol(sym, annotations[j])
      {
        ids[ii] := findSymbol(sym, annotations[ii]);
      }
      r := Ok(ids[..]);
    }

    method IterateTypeAnnotations() returns (r: Outcome<ArrayIterator<string>>)
      ensures curr == null ==> r == Thrown(IllegalState)
      ensures curr != null ==> r.Ok? && fresh(r.value) && r.value.values == curr.annotations && r.value.pos == 0
    {
      var annotations :- GetTypeAnnotations();
      var it := new ArrayIterator(annotations);
      r := Ok(it);
    }

    /**
     * The ids of GetTypeAnnotationIds as an iterator. Only an iterator over
     * at least one id is a new object; with no ids the reader hands out its
     * shared EMPTY_ITERATOR, so nothing is promised about the identity then.
     */
    method IterateTypeAnnotationIds(findSymbol: (SymbolTable, string) -> int) returns (r: Outcome<ArrayIterator<int>>)
      ensures curr == null ==> r == Thrown(IllegalState)
      ensures curr != null && curr.annotations != [] && curr.symbolTable == null ==> r == Thrown(NullPointer)
      ensures curr != null && (curr.annotations == [] || curr.symbolTable != null) ==>
                r.Ok? && r.value.pos == 0 &&
                |r.value.values| == |curr.annotations| &&
                forall i :: 0 <= i < |r.value.values| ==>
                  r.value.values[i] == findSymbol(curr.symbolTable, curr.annotations[i])
      ensures curr != null && curr.annotations != [] && curr.symbolTable != null ==> r.Ok? && fresh(r.value)
    {
      var ids :- GetTypeAnnotationIds(findSymbol);
      var it := new ArrayIterator(ids);
      r := Ok(it);
    }

    function IsInStruct(): (b: bool)
      reads this
      ensures b <==> parent != null && parent.kind == STRUCT
    {
      parent != null && parent.kind == STRUCT
    }

    function IsNullValue(): (r: Outcome<bool>)
      reads this, curr
      ensures curr == null <==> r == Thrown(IllegalState)
      ensures curr != null && curr.kind == NULL ==> r == Ok(true)
      ensures curr != null && curr.kind != NULL ==> r == Ok(curr.isNull)
    {
      if curr != null && curr.kind == NULL then Ok(true)
      else if curr == null then Thrown(IllegalState)
      else Ok(curr.isNull)
    }

    function GetFieldId(): (id: int)
      reads this, curr
      ensures curr == null ==> id == UNKNOWN_SID
      ensures curr != null ==> id == curr.fieldId
    {
      if curr == null then UNKNOWN_SID else curr.fieldId
    }

    function GetFieldName(): (name: Option<string>)
      reads this, curr
      ensures curr == null ==> name == None
      ensures curr != null ==> name == curr.fieldName
    {
      if curr == null then None else curr.fieldName
    }

    function BooleanValue(): (r: Outcome<bool>)
      reads this, curr
      ensures r.Ok? <==> curr != null && curr.kind == BOOL
      ensures r.Ok? ==> r.value == curr.boolValue
      ensures !r.Ok? ==> r == Thrown(IllegalState)
    {
      if curr != null && curr.kind == BOOL then Ok(curr.boolValue) else Thrown(IllegalState)
    }

    function BigDecimalValue(): (r: Outcome<Decimal>)
      reads this, curr
      ensures r.Ok? <==> curr != null && curr.kind == DECIMAL
      ensures r.Ok? ==> r.value == curr.decimalValue
      ensures !r.Ok? ==> r == Thrown(IllegalState)
    {
      if curr != null && curr.kind == DECIMAL then Ok(curr.decimalValue) else Thrown(IllegalState)
    }

    function DecimalValue(): (r: Outcome<Decimal>)
      reads this, curr
      ensures r == BigDecimalValue()
    {
      if curr != null && curr.kind == DECIMAL then Ok(curr.decimalValue) else Thrown(IllegalState)
    }

    function TimestampValue(): (r: Outcome<Timestamp>)
      reads this, curr
      ensures r.Ok? <==> curr != null && curr.kind == TIMESTAMP
      ensures r.Ok? ==> r.value == curr.timestampValue
      ensures !r.Ok? ==> r == Thrown(IllegalState)
    {
      if curr != null && curr.kind == TIMESTAMP then Ok(curr.timestampValue) else Thrown(IllegalState)
    }

    /** java.util.Date of the current timestamp: its instant in milliseconds. */
    function DateValue(): (r: Outcome<int>)
      reads this, curr
      ensures r.Ok? <==> TimestampValue().Ok?
      ensures r.Ok? ==> r.value == TimestampValue().value.epochMillis
      ensures !r.Ok? ==> r == Thrown(IllegalState)
    {
      if curr != null && curr.kind == TIMESTAMP then Ok(curr.timestampValue.epochMillis) else Thrown(IllegalState)
    }

    function StringValue(): (r: Outcome<Option<string>>)
      reads this, curr
      ensures curr == null ==> r == Ok(None)
      ensures curr != null && curr.kind.IsText() ==> r == Ok(curr.textValue)
      ensures curr != null && !curr.kind.IsText() ==> r == Thrown(IllegalState)
    {
      if curr == null then Ok(None)
      else if curr.kind.IsText() then Ok(curr.textValue)
      else Thrown(IllegalState)
    }

    function GetSymbolId(): (r: Outcome<int>)
      reads this, curr
      ensures curr == null ==> r == Ok(-1)
      ensures curr != null && curr.kind == SYMBOL ==> r == Ok(curr.symbolId)
      ensures curr != null && curr.kind != SYMBOL ==> r == Thrown(IllegalState)
    {
      if curr == null then Ok(-1)
      else if curr.kind == SYMBOL then Ok(curr.symbolId)
      else Thrown(IllegalState)
    }

    function ByteSize(): (r: Outcome<nat>)
      reads this, curr
      ensures r.Ok? <==> curr != null && curr.kind.IsLob()
      ensures r.Ok? ==> r.value == |curr.lobBytes|
      ensures !r.Ok? ==> r == Thrown(IllegalState)
    {
      if curr != null && curr.kind.IsLob() then Ok(|curr.lobBytes|) else Thrown(IllegalState)
    }

    /**
     * The checks of getBytes(buffer, offset, len): a lob that does not fit in
     * `len` bytes is refused; otherwise the call reports the lob's length.
     */
    function GetBytes(len: int): (r: Outcome<nat>)
      reads this, curr
      ensures curr == null || !curr.kind.IsLob() ==> r == Thrown(IllegalState)
      ensures curr != null && curr.kind.IsLob() && |curr.lobBytes| > len ==> r == Thrown(IllegalArgument)
      ensures r.Ok? <==> ByteSize().Ok? && ByteSize().value <= len
      ensures r.Ok? ==> r.value == ByteSize().value
    {
      if curr != null && curr.kind.IsLob() then
        if |curr.lobBytes| > len then Thrown(IllegalArgument) else Ok(|curr.lobBytes|)
      else Thrown(IllegalState)
    }

    function GetSymbolTable(): (t: SymbolTable?)
      reads this, curr, parent
      ensures curr != null ==> t == curr.symbolTable
      ensures curr == null && parent != null ==> t == parent.symbolTable
      ensures curr == null && parent == null ==> t == null
    {
      if curr != null then curr.symbolTable
      else if parent != null then parent.symbolTable
      else null
    }
  }

  /**
   * A reader over one value that is not a datagram has no current value until
   * next() (no type, isNullValue and stepIn refused), then returns that value
   * once, and then keeps reporting the end.
   */
  method ReadSingleValue(v: IonNode, ghost ancestors: seq<IonNode>)
    returns (before: Option<IonType>, nullBefore: Outcome<bool>, early: Outcome<()>,
             first: Option<IonType>, got: IonNode?, second: Option<IonType>, third: Option<IonType>)
    requires v.kind != DATAGRAM
    requires v.kind.IsContainer() ==> |ancestors| > 0 && ancestors[0] == v && AncestorChain(ancestors)
    ensures before == None && nullBefore == Thrown(IllegalState) && early == Thrown(IllegalState)
    ensures first == Some(v.kind) && got == v
    ensures second == None && third == None
  {
    var r := new IonReaderTreeSystem(v, ancestors);
    before := r.GetType();
    nullBefore := r.IsNullValue();
    early := r.StepIn();
    first := r.Next();
    got := r.curr;
    second := r.Next();
    third := r.Next();
  }

  /** Moving the head of `p` to the end of `v` keeps the concatenation. */
  lemma AppendFirst<T>(v: seq<T>, p: seq<T>)
    requires p != []
    ensures v + [p[0]] + p[1..] == v + p
  {
    assert p == [p[0]] + p[1..];
  }

  /** A reader over a datagram returns the datagram's children, in order, each once. */
  method ReadDatagram(dg: IonNode) returns (values: seq<IonNode>)
    requires dg.kind == DATAGRAM
    ensures values == if dg.isNull then [] else dg.contents
  {
    var r := new IonReaderTreeSystem(dg, []);
    ghost var all := r.Pending();
    values := [];
    while true
      invariant fresh(r) && fresh(r.stack) && r.Valid() && r.CanAdvance()
      invariant r.iter != null && fresh(r.iter) && r.iter.parent == dg
      invariant values + r.Pending() == all
      decreases |all| - |values|
    {
      ghost var before := r.Pending();
      var t := r.Next();
      if t.None? {
        break;
      }
      AppendFirst(values, before);
      values := values + [r.curr];
    }
  }

  /**
   * stepIn keeps a lookahead buffered at the enclosing level: when hasNext()
   * has already peeked at the container's next sibling, next() right after
   * stepIn returns that sibling, not the container's first child.
   */
  method LookaheadLeaksIntoChild(r: IonReaderTreeSystem) returns (stepped: Outcome<()>, t: Option<IonType>)
    requires r.Valid() && r.next != null
    requires r.curr != null && r.curr.kind.IsContainer()
    modifies r, r.stack
    ensures r.Valid() && stepped == Ok(()) && r.GetDepth() == old(r.GetDepth()) + 1
    ensures t == Some(old(r.next).kind) && r.curr == old(r.next)
  {
    stepped := r.StepIn();
    t := r.Next();
  }

  /**
   * stepIn keeps the end flag of the enclosing level: once hasNext() has found
   * the enclosing level exhausted, stepping into its last value reads nothing,
   * however many children that value has.
   */
  method EndFlagLeaksIntoChild(r: IonReaderTreeSystem) returns (stepped: Outcome<()>, t: Option<IonType>)
    requires r.Valid() && r.eof
    requires r.curr != null && r.curr.kind.IsContainer()
    modifies r, r.stack
    ensures r.Valid() && stepped == Ok(()) && r.GetDepth() == old(r.GetDepth()) + 1
    ensures t == None
  {
    stepped := r.StepIn();
    t := r.Next();
  }

  /**
   * A matched stepIn / stepOut around a read of the first child returns to the
   * enclosing level: same depth, same parent and iterator, and the values still
   * to come at that level are the ones that were to come before stepIn.
   */
  method StepOutResumesParent(r: IonReaderTreeSystem) returns (inner: Option<IonType>)
    requires r.Valid() && r.CanAdvance() && !r.eof && r.next == null
    requires r.curr != null && r.curr.kind.IsContainer()
    modifies r, r.stack
    ensures r.Valid() && r.CanAdvance()
    ensures r.GetDepth() == old(r.GetDepth())
    ensures r.parent == old(r.parent) && r.iter == old(r.iter) && r.Pending() == old(r.Pending())
  {
    var stepped := r.StepIn();
    inner := r.Next();
    var out := r.StepOut();
  }

  /**
   * The ordinary nested read: next() onto a container, stepIn(), then next()
   * returns the container's first child (or the end, for an empty or null
   * container), one level deeper.
   */
  method NextStepInNext(r: IonReaderTreeSystem) returns (outer: Option<IonType>, stepped: Outcome<()>, inner: Option<IonType>)
    requires r.Valid() && r.CanAdvance() && r.Pending() != []
    requires r.Pending()[0].kind.IsContainer()
    modifies r, r.stack, r.iter
    ensures r.Valid() && r.CanAdvance()
    ensures outer == Some(old(r.Pending())[0].kind) && stepped == Ok(())
    ensures r.GetDepth() == old(r.GetDepth()) + 1 && r.parent == old(r.Pending())[0]
    ensures old(r.Pending())[0].isNull || old(r.Pending())[0].contents == [] ==> inner == None
    ensures !old(r.Pending())[0].isNull && old(r.Pending())[0].contents != [] ==>
              inner == Some(old(r.Pending())[0].contents[0].kind) && r.curr == old(r.Pending())[0].contents[0]
  {
    outer := r.Next();
    stepped := r.StepIn();
    inner := r.Next();
  }
}
