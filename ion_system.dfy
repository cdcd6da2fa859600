/**
 * IonSystemImpl: the system-level decisions that sit above the readers. It
 * holds the one Ion 1.0 system symbol table, a catalog and a loader, answers
 * which system id it supports, recognises the values that switch the active
 * symbol table at the top level of a stream, and turns a reader that must hold
 * exactly one value into that value.
 *
 * Symbol tables, catalogs and loaders are used only by identity; the reader
 * handed to singleValue is the small ValueReader class below.
 */
module IonSystem {
  import opened IonValues

  /** SystemSymbolTable.ION_1_0: the system id of Ion 1.0. */
  const ION_1_0: string := "$ion_1_0"

  /** SystemSymbolTable.ION_SYMBOL_TABLE: the annotation of a static symbol table. */
  const ION_SYMBOL_TABLE: string := "$ion_symbol_table"

  /** SystemSymbolTableImpl.ION_1_0_SID: the symbol id of `$ion_1_0` in the Ion 1.0 system table. */
  const ION_1_0_SID := 2

  /** The message of the IonException raised by singleValue. */
  const NOT_A_SINGLE_VALUE: string := "not a single value"

  /**
   * valueIsSystemId: a non-null symbol that names `$ion_1_0`. A symbol that
   * has a symbol id is judged by that id alone; only a symbol without one is
   * judged by its text.
   */
  predicate ValueIsSystemId(value: IonNode?): (b: bool)
    reads value
    ensures b ==> value != null && value.kind == SYMBOL && !value.isNull
    ensures b ==> value.symbolId == ION_1_0_SID || (value.symbolId <= 0 && value.textValue == Some(ION_1_0))
  {
    value != null && value.kind == SYMBOL && !value.isNull &&
    if value.symbolId > 0 then value.symbolId == ION_1_0_SID
    else value.textValue == Some(ION_1_0)
  }

  /** valueIsStaticSymbolTable: a struct carrying the `$ion_symbol_table` annotation. */
  predicate ValueIsStaticSymbolTable(value: IonNode?): (b: bool)
    reads value
    ensures b ==> value != null && value.kind == STRUCT && ION_SYMBOL_TABLE in value.annotations
    ensures b ==> !ValueIsSystemId(value)
  {
    value != null && value.kind == STRUCT && ION_SYMBOL_TABLE in value.annotations
  }

  /** Which local symbol table, if any, handleLocalSymbolTable builds for a top-level value. */
  datatype LocalTableStart =
    | NoTable          // the value leaves the active table alone
    | FromDefinition   // a table built from the struct, with the caller's catalog
    | OverSystem       // an empty table over the system table

  /**
   * The rule of handleLocalSymbolTable: a struct starts a table exactly when
   * it is annotated `$ion_1_0`; any other value does so exactly when it is the
   * system id symbol.
   */
  function LocalTableRule(value: IonNode?): (s: LocalTableStart)
    reads value
    ensures s == FromDefinition <==> value != null && value.kind == STRUCT && ION_1_0 in value.annotations
    ensures s == OverSystem <==> ValueIsSystemId(value)
    ensures s == NoTable <==>
              !ValueIsSystemId(value) && (value == null || value.kind != STRUCT || ION_1_0 !in value.annotations)
  {
    if value != null && value.kind == STRUCT then
      if ION_1_0 in value.annotations then FromDefinition else NoTable
    else if ValueIsSystemId(value) then OverSystem
    else NoTable
  }

  /**
   * A symbol with a positive id is the system id or not whatever its text
   * says: two symbols that differ only in their text are judged alike.
   */
  lemma SystemIdIgnoresTextWhenSidKnown(a: IonNode, b: IonNode)
    requires a.kind == SYMBOL && b.kind == SYMBOL && !a.isNull && !b.isNull
    requires a.symbolId == b.symbolId && a.symbolId > 0
    ensures ValueIsSystemId(a) <==> ValueIsSystemId(b)
    ensures ValueIsSystemId(a) <==> a.symbolId == ION_1_0_SID
  {
  }

  /**
   * The text `$ion_1_0` is not enough when the symbol id says otherwise, and
   * is the deciding fact when there is no symbol id.
   */
  lemma SystemIdByText(s: IonNode)
    requires s.kind == SYMBOL && !s.isNull && s.textValue == Some(ION_1_0)
    ensures ValueIsSystemId(s) <==> s.symbolId <= 0 || s.symbolId == ION_1_0_SID
  {
  }

  /**
   * A static symbol table definition (a struct annotated `$ion_symbol_table`
   * but not `$ion_1_0`) does not start a local symbol table, and no value is
   * both a static table and the system id.
   */
  lemma StaticTableStartsNoLocalTable(value: IonNode?)
    ensures ValueIsStaticSymbolTable(value) ==> !ValueIsSystemId(value)
    ensures ValueIsStaticSymbolTable(value) && ION_1_0 !in value.annotations ==> LocalTableRule(value) == NoTable
  {
  }

  /** Null, and values that are neither structs nor symbols, never switch the table. */
  lemma OnlyStructsAndSymbolsStartTables(value: IonNode?)
    requires value == null || (value.kind != STRUCT && value.kind != SYMBOL)
    ensures LocalTableRule(value) == NoTable
  {
  }

  /**
   * The reader singleValue drives: the values it has still to yield, and
   * whether it has been closed.
   */
  class ValueReader {
    var remaining: seq<IonNode>
    var closed: bool

    constructor (values: seq<IonNode>)
      ensures remaining == values && !closed
    {
      remaining := values;
      closed := false;
    }

    function HasNext(): (b: bool)
      reads this
      ensures b <==> remaining != []
    {
      remaining != []
    }

    method Next() returns (r: Outcome<IonNode>)
      modifies this
      ensures old(remaining) == [] ==> r == Thrown(NoSuchElement) && remaining == []
      ensures old(remaining) != [] ==> r == Ok(old(remaining)[0]) && remaining == old(remaining)[1..]
      ensures closed == old(closed)
    {
      if remaining == [] {
        return Thrown(NoSuchElement);
      }
      r := Ok(remaining[0]);
      remaining := remaining[1..];
    }

    method Close()
      modifies this
      ensures closed && remaining == old(remaining)
    {
      closed := true;
    }
  }

  class IonSystemImpl {
    const systemSymbols: SymbolTable
    var catalog: Catalog?
    var loader: Loader

    /** A system with a new, empty catalog. */
    constructor ()
      ensures fresh(systemSymbols) && systemSymbols.system == null
      ensures catalog != null && fresh(catalog) && fresh(loader)
    {
      systemSymbols := new SymbolTable.System();
      catalog := new Catalog();
      loader := new Loader();
    }

    /** A system over the given catalog; this constructor does not reject null. */
    constructor WithCatalog(c: Catalog?)
      ensures fresh(systemSymbols) && systemSymbols.system == null
      ensures catalog == c && fresh(loader)
    {
      systemSymbols := new SymbolTable.System();
      catalog := c;
      loader := new Loader();
    }

    /** getSystemSymbolTable(): the system's one system symbol table. */
    function SystemSymbolTable(): (t: SymbolTable)
      ensures t == systemSymbols
    {
      systemSymbols
    }

    /**
     * getSystemSymbolTable(systemId): only Ion 1.0 is supported, and it is
     * served by the very table SystemSymbolTable() returns.
     */
    function GetSystemSymbolTable(systemId: string): (r: Outcome<SymbolTable>)
      ensures r.Ok? <==> systemId == ION_1_0
      ensures r.Ok? ==> r.value == SystemSymbolTable()
      ensures r.Thrown? ==> r.error == UnsupportedSystemVersion(systemId)
    {
      if systemId == ION_1_0 then Ok(systemSymbols) else Thrown(UnsupportedSystemVersion(systemId))
    }

    method SetCatalog(c: Catalog?) returns (r: Outcome<()>)
      modifies this
      ensures c == null ==> r == Thrown(NullPointer) && catalog == old(catalog)
      ensures c != null ==> r == Ok(()) && catalog == c
      ensures loader == old(loader)
    {
      if c == null {
        return Thrown(NullPointer);
      }
      catalog := c;
      r := Ok(());
    }

    method SetLoader(l: Loader?) returns (r: Outcome<()>)
      modifies this
      ensures l == null ==> r == Thrown(NullPointer) && loader == old(loader)
      ensures l != null ==> r == Ok(()) && loader == l
      ensures catalog == old(catalog)
    {
      if l == null {
        return Thrown(NullPointer);
      }
      loader := l;
      r := Ok(());
    }

    /**
     * handleLocalSymbolTable: the new local symbol table a top-level value
     * starts, per LocalTableRule, or null.
     */
    method HandleLocalSymbolTable(c: Catalog?, value: IonNode?) returns (t: SymbolTable?)
      ensures t == null <==> LocalTableRule(value) == NoTable
      ensures LocalTableRule(value) == FromDefinition ==>
                t != null && fresh(t) && t.system == systemSymbols && t.catalog == c && t.definition == value
      ensures LocalTableRule(value) == OverSystem ==>
                t != null && fresh(t) && t.system == systemSymbols && t.catalog == null && t.definition == null
    {
      t := null;
      if value != null && value.kind == STRUCT {
        if ION_1_0 in value.annotations {
          t := new SymbolTable.Local(systemSymbols, c, value);
        }
      } else if ValueIsSystemId(value) {
        t := new SymbolTable.Local(systemSymbols, null, null);
      }
    }

    /**
     * singleValue(IonReader): the reader's only value; a reader holding no
     * value or more than one is refused. The reader is closed on every path.
     */
    method SingleValue(reader: ValueReader) returns (r: Outcome<IonNode>)
      modifies reader
      ensures reader.closed
      ensures r.Ok? <==> |old(reader.remaining)| == 1
      ensures r.Ok? ==> r.value == old(reader.remaining)[0]
      ensures r.Thrown? ==> r.error == IonError(NOT_A_SINGLE_VALUE)
      ensures reader.remaining == if old(reader.remaining) == [] then [] else old(reader.remaining)[1..]
    {
      r := Thrown(IonError(NOT_A_SINGLE_VALUE));
      if reader.HasNext() {
        var v := reader.Next();
        if v.Ok? && !reader.HasNext() {
          r := v;
        }
      }
      reader.Close();
    }

    /** newInt(int) / newInt(long): a new, non-null int value. */
    method NewInt(content: int) returns (n: IonNode)
      ensures fresh(n)
      ensures n.kind == INT && !n.isNull && n.intValue == content
      ensures n.contents == [] && n.container == null && n.annotations == []
    {
      n := new IonNode(INT, false);
      n.intValue := content;
    }

    /**
     * newInts(int[]) and newInts(long[]): null for a null array, otherwise one
     * new, distinct int value per element, in order.
     */
    method NewInts(elements: array?<int>) returns (e: Option<seq<IonNode>>)
      ensures e.None? <==> elements == null
      ensures e.Some? ==> |e.value| == elements.Length
      ensures e.Some? ==> forall i :: 0 <= i < |e.value| ==>
                fresh(e.value[i]) && e.value[i].kind == INT && !e.value[i].isNull &&
                e.value[i].intValue == elements[i]
      ensures e.Some? ==> forall i, j :: 0 <= i < j < |e.value| ==> e.value[i] != e.value[j]
    {
      if elements == null {
        return None;
      }
      var list: seq<IonNode> := [];
      for i := 0 to elements.Length
        invariant |list| == i
        invariant forall k :: 0 <= k < i ==>
                    fresh(list[k]) && list[k].kind == INT && !list[k].isNull && list[k].intValue == elements[k]
        invariant forall k, m :: 0 <= k < m < i ==> list[k] != list[m]
      {
        var n := NewInt(elements[i]);
        list := list + [n];
      }
      e := Some(list);
    }
  }
}
