/**
 * The in-memory value tree the cursor walks, and the small vocabulary shared by
 * the modelled classes: Java exceptions as an outcome type, Java's signed byte,
 * and the collaborators (symbol tables, catalogs, loaders) that are used only by
 * identity.
 *
 * The value classes themselves (IonStructImpl, IonListImpl, ...) are not part of
 * this model: a value is one IonNode whose `kind` says which Java class it is an
 * instance of, and whose fields hold what the value's getters return.
 */
module IonValues {

  datatype Option<T> = None | Some(value: T)

  /** The Java exceptions the modelled code throws (or lets escape). */
  datatype JavaException =
    | IllegalState
    | IllegalArgument
    | NullPointer
    | NoSuchElement
    | BufferUnderflow
    | IndexOutOfBounds
    | UnsupportedSystemVersion(systemId: string)
    | IonError(message: string)

  /** A call either returns normally or throws. */
  datatype Outcome<T> = Ok(value: T) | Thrown(error: JavaException)
  {
    /** An exception propagates to the caller (`:-`). */
    predicate IsFailure() {
      Thrown?
    }

    function PropagateFailure<U>(): Outcome<U>
      requires Thrown?
    {
      Thrown(error)
    }

    function Extract(): T
      requires Ok?
    {
      value
    }
  }

  /** Java's signed `byte`. */
  newtype int8 = x: int | -128 <= x < 128

  /** The concrete type of a value: which of the IonValue interfaces it implements. */
  datatype IonType =
    | NULL | BOOL | INT | FLOAT | DECIMAL | TIMESTAMP | SYMBOL | STRING
    | CLOB | BLOB | LIST | SEXP | STRUCT | DATAGRAM
  {
    /** `instanceof IonContainer` (every container here is an IonContainerImpl). */
    predicate IsContainer() {
      this == LIST || this == SEXP || this == STRUCT || this == DATAGRAM
    }

    /** `instanceof IonText`. */
    predicate IsText() {
      this == STRING || this == SYMBOL
    }

    /** `instanceof IonLob`. */
    predicate IsLob() {
      this == CLOB || this == BLOB
    }
  }

  /** A decimal as coefficient * 10^-scale. */
  datatype Decimal = Decimal(coefficient: int, scale: int)

  /** A timestamp, as the instant it denotes (its local offset is not modelled). */
  datatype Timestamp = Timestamp(epochMillis: int)

  /** An IonCatalog; used only by identity. */
  class Catalog {
    constructor () { }
  }

  /** An IonLoader; used only by identity. */
  class Loader {
    constructor () { }
  }

  /**
   * A symbol table. A system table has no `system` of its own; a local table is
   * chained to the system table it was built over, and remembers the catalog and
   * the in-stream struct it was built from, if any.
   */
  class SymbolTable {
    const system: SymbolTable?
    const catalog: Catalog?
    const definition: IonNode?

    constructor System()
      ensures system == null && catalog == null && definition == null
    {
      system := null;
      catalog := null;
      definition := null;
    }

    constructor Local(system: SymbolTable, catalog: Catalog?, definition: IonNode?)
      ensures this.system == system && this.catalog == catalog && this.definition == definition
    {
      this.system := system;
      this.catalog := catalog;
      this.definition := definition;
    }
  }

  /**
   * One value of the tree. `contents` is the live child list of a container
   * (the cursor re-reads it on every step, so it may change between calls);
   * `container` is the enclosing container, null at a root.
   */
  class IonNode {
    const kind: IonType
    var isNull: bool
    var contents: seq<IonNode>
    var container: IonNode?
    var annotations: seq<string>
    var fieldName: Option<string>
    var fieldId: int
    var symbolTable: SymbolTable?
    var boolValue: bool
    var intValue: int
    var decimalValue: Decimal
    var timestampValue: Timestamp
    var textValue: Option<string>
    var symbolId: int
    var lobBytes: seq<int8>

    constructor (kind: IonType, isNull: bool)
      ensures this.kind == kind && this.isNull == isNull
      ensures contents == [] && container == null && annotations == []
      ensures fieldName == None && symbolTable == null
    {
      this.kind := kind;
      this.isNull := isNull;
      contents := [];
      container := null;
      annotations := [];
      fieldName := None;
      symbolTable := null;
    }
  }

  /**
   * A finite chain of enclosing containers starting at chain[0]: each link's
   * `container` is the next link and the last one is a root.
   */
  ghost predicate AncestorChain(chain: seq<IonNode>)
    reads set n | n in chain
  {
    |chain| > 0 &&
    chain[|chain| - 1].container == null &&
    forall i :: 0 <= i < |chain| - 1 ==> chain[i].container == chain[i + 1]
  }
}
