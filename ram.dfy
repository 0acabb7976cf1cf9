/** The executor's memory (ram.hpp): a table of typed cells, one per variable
    name, looked up by identifier or by address (the cell's index). The pure
    functions below give the meaning of the table as a sequence of cells; the
    class Memory is the table itself, an array of cells with a count. */
module Ram {

  import opened Numeric

  /** RAM_CELL_TYPES. */
  datatype CellType = IntType | RealType | StrType | PtrType | BooleanType | NoneType

  /** A cell's payload. The tag is a function of the payload, so a cell can
      never be read through a member that does not match its tag. */
  datatype Value =
    | IntVal(i: int)
    | RealVal(d: real)
    | StrVal(s: string)
    | PtrVal(address: int)
    | BooleanVal(b: bool)
    | NoneVal

  function TypeOf(v: Value): CellType
  {
    match v
    case IntVal(_) => IntType
    case RealVal(_) => RealType
    case StrVal(_) => StrType
    case PtrVal(_) => PtrType
    case BooleanVal(_) => BooleanType
    case NoneVal => NoneType
  }

  /** RAM_CELL: an identifier and one typed value. */
  datatype Cell = Cell(identifier: string, value: Value)

  /** No identifier occurs twice. */
  predicate UniqueIds(cs: seq<Cell>)
  {
    forall i, j :: 0 <= i < j < |cs| ==> cs[i].identifier != cs[j].identifier
  }

  /** ram_get_addr: the index of the first cell named `id`, or -1. */
  function IndexOf(cs: seq<Cell>, id: string): (r: int)
    ensures -1 <= r < |cs|
    ensures r == -1 <==> forall k :: 0 <= k < |cs| ==> cs[k].identifier != id
    ensures r >= 0 ==> cs[r].identifier == id && forall k :: 0 <= k < r ==> cs[k].identifier != id
  {
    if cs == [] then -1
    else if cs[0].identifier == id then 0
    else
      var r := IndexOf(cs[1..], id);
      if r < 0 then -1 else r + 1
  }

  /** ram_get_cell_by_id: the cell named `id`, or None ("null") when no cell
      has that name. */
  function Find(cs: seq<Cell>, id: string): (r: Option<Cell>)
    ensures r.None? <==> forall k :: 0 <= k < |cs| ==> cs[k].identifier != id
    ensures r.Some? ==> r.value.identifier == id && r.value in cs
  {
    var k := IndexOf(cs, id);
    if k < 0 then None else Some(cs[k])
  }

  /** The value of the variable `id`, if it is defined. */
  function Lookup(cs: seq<Cell>, id: string): Option<Value>
  {
    match Find(cs, id)
    case None => None
    case Some(c) => Some(c.value)
  }

  /** Two tables with the same identifiers at the same places agree on every
      address. */
  lemma IndexOfFollowsIds(a: seq<Cell>, b: seq<Cell>, id: string)
    requires |a| == |b|
    requires forall k :: 0 <= k < |a| ==> a[k].identifier == b[k].identifier
    ensures IndexOf(a, id) == IndexOf(b, id)
  {
    var ra, rb := IndexOf(a, id), IndexOf(b, id);
    if ra >= 0 && rb >= 0 {
      assert ra <= rb && rb <= ra;
    }
  }

  /** Appending a cell does not move the cells already there. */
  lemma IndexOfAppend(cs: seq<Cell>, c: Cell, id: string)
    requires id != c.identifier
    ensures IndexOf(cs + [c], id) == IndexOf(cs, id)
  {
    var a, b := IndexOf(cs + [c], id), IndexOf(cs, id);
    assert forall k :: 0 <= k < |cs| ==> (cs + [c])[k] == cs[k];
    if a >= 0 && b >= 0 {
      assert a <= b && b <= a;
    }
  }

  /** ram_write_*_by_id: overwrite the cell named `id` in place, or append a
      new cell when there is none. Afterwards `id` holds `v`, every other
      name is unchanged, and no name is added twice. */
  function Write(cs: seq<Cell>, id: string, v: Value): (r: seq<Cell>)
    ensures Lookup(r, id) == Some(v)
    ensures forall y :: y != id ==> Lookup(r, y) == Lookup(cs, y)
    ensures |r| == if Lookup(cs, id).Some? then |cs| else |cs| + 1
    ensures UniqueIds(cs) ==> UniqueIds(r)
    ensures forall k :: 0 <= k < |cs| ==> r[k].identifier == cs[k].identifier
  {
    var k := IndexOf(cs, id);
    var c := Cell(id, v);
    if k < 0 then
      assert forall y :: y != id ==> IndexOf(cs + [c], y) == IndexOf(cs, y) by {
        forall y | y != id { IndexOfAppend(cs, c, y); }
      }
      assert forall j :: 0 <= j < |cs| ==> (cs + [c])[j] == cs[j];
      assert (cs + [c])[|cs|].identifier == id;
      assert IndexOf(cs + [c], id) == |cs|;
      cs + [c]
    else
      assert forall y :: IndexOf(cs[k := c], y) == IndexOf(cs, y) by {
        forall y { IndexOfFollowsIds(cs[k := c], cs, y); }
      }
      cs[k := c]
  }

  /** ram_write_*_by_addr: replace the value at `address`, keeping its name. */
  function WriteAt(cs: seq<Cell>, address: nat, v: Value): (r: seq<Cell>)
    requires address < |cs|
    ensures |r| == |cs| && r[address].value == v
    ensures forall k :: 0 <= k < |cs| ==> r[k].identifier == cs[k].identifier
    ensures forall k :: 0 <= k < |cs| && k != address ==> r[k] == cs[k]
  {
    cs[address := Cell(cs[address].identifier, v)]
  }

  /** By-id and by-address access reach the same cell: the address ram_get_addr
      gives for a defined name reads that name's cell, and writing through it
      is the same as writing by name. */
  lemma AddressAgreesWithIdentifier(cs: seq<Cell>, id: string, v: Value)
    requires IndexOf(cs, id) >= 0
    ensures Find(cs, id) == Some(cs[IndexOf(cs, id)])
    ensures WriteAt(cs, IndexOf(cs, id), v) == Write(cs, id, v)
  {
  }

  /** In a table without repeated names, the cell at an address is the cell
      found under its own name. */
  lemma AddressOfOwnName(cs: seq<Cell>, k: nat)
    requires UniqueIds(cs) && k < |cs|
    ensures IndexOf(cs, cs[k].identifier) == k
  {
  }

  /** The table the source leaves the growth of to ram.c, whose body is not
      part of this model: here it starts with four cells and doubles. */
  const InitialCapacity: nat := 4

  /** RAM: `cells[0..numValues)` are the cells in use, out of `memorySize`. */
  class Memory {
    var cells: array<Cell>
    var numValues: nat
    var memorySize: nat
    ghost var Repr: set<object>

    ghost predicate Valid()
      reads this, Repr
      ensures Valid() ==> this in Repr
    {
      && this in Repr
      && cells in Repr
      && memorySize == cells.Length
      && 0 < memorySize
      && numValues <= memorySize
      && UniqueIds(cells[..numValues])
    }

    /** The cells in use, in insertion order. */
    function Contents(): seq<Cell>
      reads this, cells
      requires numValues <= cells.Length
    {
      cells[..numValues]
    }

    /** ram_init: an empty table. */
    constructor ()
      ensures Valid() && fresh(Repr)
      ensures Contents() == []
    {
      cells := new Cell[InitialCapacity](_ => Cell("", NoneVal));
      numValues := 0;
      memorySize := InitialCapacity;
      Repr := {this, cells};
    }

    /** ram_get_addr. */
    method GetAddr(identifier: string) returns (address: int)
      requires Valid()
      ensures address == IndexOf(Contents(), identifier)
      ensures address >= 0 ==> address < numValues && cells[address].identifier == identifier
    {
      var i := 0;
      while i < numValues
        invariant 0 <= i <= numValues
        invariant forall k :: 0 <= k < i ==> cells[k].identifier != identifier
      {
        if cells[i].identifier == identifier {
          assert Contents()[i].identifier == identifier;
          return i;
        }
        i := i + 1;
      }
      return -1;
    }

    /** ram_get_cell_by_id. */
    method GetCellById(identifier: string) returns (cell: Option<Cell>)
      requires Valid()
      ensures cell == Find(Contents(), identifier)
      ensures cell.None? <==> forall k :: 0 <= k < numValues ==> cells[k].identifier != identifier
    {
      var address := GetAddr(identifier);
      if address < 0 {
        cell := None;
      } else {
        cell := Some(cells[address]);
      }
    }

    /** ram_get_cell_by_addr: None for an address outside the cells in use. */
    method GetCellByAddr(address: int) returns (cell: Option<Cell>)
      requires Valid()
      ensures cell == if 0 <= address < numValues then Some(Contents()[address]) else None
    {
      if 0 <= address < numValues {
        cell := Some(cells[address]);
      } else {
        cell := None;
      }
    }

    /** Doubles the capacity, keeping the cells in use. */
    method Grow()
      requires Valid()
      modifies Repr
      ensures Valid() && fresh(Repr - old(Repr))
      ensures Contents() == old(Contents())
      ensures numValues == old(numValues) && memorySize == 2 * old(memorySize)
    {
      var bigger := new Cell[2 * memorySize](_ => Cell("", NoneVal));
      var i := 0;
      while i < numValues
        invariant 0 <= i <= numValues
        invariant bigger[..i] == cells[..i]
        modifies bigger
      {
        bigger[i] := cells[i];
        i := i + 1;
      }
      cells := bigger;
      memorySize := 2 * memorySize;
      Repr := {this, cells};
    }

    /** The common body of the ram_write_*_by_id functions. */
    method WriteById(identifier: string, v: Value)
      requires Valid()
      modifies Repr
      ensures Valid() && fresh(Repr - old(Repr))
      ensures Contents() == Write(old(Contents()), identifier, v)
    {
      var address := GetAddr(identifier);
      if address >= 0 {
        cells[address] := Cell(identifier, v);
        assert Contents() == old(Contents())[address := Cell(identifier, v)];
      } else {
        if numValues == memorySize {
          Grow();
        }
        cells[numValues] := Cell(identifier, v);
        numValues := numValues + 1;
        assert Contents() == old(Contents()) + [Cell(identifier, v)];
      }
    }

    method WriteIntById(identifier: string, value: int)
      requires Valid()
      modifies Repr
      ensures Valid() && fresh(Repr - old(Repr))
      ensures Contents() == Write(old(Contents()), identifier, IntVal(value))
    {
      WriteById(identifier, IntVal(value));
    }

    method WriteRealById(identifier: string, value: real)
      requires Valid()
      modifies Repr
      ensures Valid() && fresh(Repr - old(Repr))
      ensures Contents() == Write(old(Contents()), identifier, RealVal(value))
    {
      WriteById(identifier, RealVal(value));
    }

    method WriteStrById(identifier: string, value: string)
      requires Valid()
      modifies Repr
      ensures Valid() && fresh(Repr - old(Repr))
      ensures Contents() == Write(old(Contents()), identifier, StrVal(value))
    {
      WriteById(identifier, StrVal(value));
    }

    method WritePtrById(identifier: string, value: int)
      requires Valid()
      modifies Repr
      ensures Valid() && fresh(Repr - old(Repr))
      ensures Contents() == Write(old(Contents()), identifier, PtrVal(value))
    {
      WriteById(identifier, PtrVal(value));
    }

    /** The common body of the ram_write_*_by_addr functions. An address
        outside the cells in use changes nothing. */
    method WriteByAddr(address: int, v: Value)
      requires Valid()
      modifies Repr
      ensures Valid() && Repr == old(Repr)
      ensures Contents() == if 0 <= address < old(numValues) then WriteAt(old(Contents()), address, v) else old(Contents())
    {
      if 0 <= address < numValues {
        cells[address] := Cell(cells[address].identifier, v);
        assert Contents() == WriteAt(old(Contents()), address, v);
      }
    }

    method WriteIntByAddr(address: int, value: int)
      requires Valid()
      modifies Repr
      ensures Valid() && Repr == old(Repr)
      ensures Contents() == if 0 <= address < old(numValues) then WriteAt(old(Contents()), address, IntVal(value)) else old(Contents())
    {
      WriteByAddr(address, IntVal(value));
    }

    method WriteRealByAddr(address: int, value: real)
      requires Valid()
      modifies Repr
      ensures Valid() && Repr == old(Repr)
      ensures Contents() == if 0 <= address < old(numValues) then WriteAt(old(Contents()), address, RealVal(value)) else old(Contents())
    {
      WriteByAddr(address, RealVal(value));
    }

    method WriteStrByAddr(address: int, value: string)
      requires Valid()
      modifies Repr
      ensures Valid() && Repr == old(Repr)
      ensures Contents() == if 0 <= address < old(numValues) then WriteAt(old(Contents()), address, StrVal(value)) else old(Contents())
    {
      WriteByAddr(address, StrVal(value));
    }

    method WritePtrByAddr(address: int, value: int)
      requires Valid()
      modifies Repr
      ensures Valid() && Repr == old(Repr)
      ensures Contents() == if 0 <= address < old(numValues) then WriteAt(old(Contents()), address, PtrVal(value)) else old(Contents())
    {
      WriteByAddr(address, PtrVal(value));
    }
  }
}
