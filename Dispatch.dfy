// The table scan both daemons' ThreadWrapper loops perform: walk the
// rpc_functions table and stop at the first entry whose name equals the
// request's function name (strcmp == 0).

module Dispatch {
  import opened Common

  /** The index of the first name, from position i on, equal to name. */
  function FindNameFrom(names: seq<seq<byte>>, name: seq<byte>, i: nat): (r: Option<nat>)
    requires i <= |names|
    ensures r.Some? ==> i <= r.value < |names| && names[r.value] == name
    ensures r.Some? ==> forall j | i <= j < r.value :: names[j] != name
    ensures r.None? ==> forall j | i <= j < |names| :: names[j] != name
    decreases |names| - i
  {
    if i == |names| then None
    else if names[i] == name then Some(i)
    else FindNameFrom(names, name, i + 1)
  }

  /** The entry dispatch runs for a request name, if any. */
  function FindName(names: seq<seq<byte>>, name: seq<byte>): (r: Option<nat>)
    ensures r.Some? ==> r.value < |names| && names[r.value] == name
    ensures r.Some? ==> forall j | 0 <= j < r.value :: names[j] != name
    ensures r.None? <==> name !in names
  {
    FindNameFrom(names, name, 0)
  }

  /** The inner loop of ThreadWrapper: advance through the table until a name matches or the table ends. */
  method ScanTable(names: seq<seq<byte>>, name: seq<byte>) returns (r: Option<nat>)
    ensures r == FindName(names, name)
  {
    var i := 0;
    while i < |names|
      invariant 0 <= i <= |names|
      invariant FindNameFrom(names, name, i) == FindName(names, name)
    {
      if names[i] == name {
        return Some(i);
      }
      i := i + 1;
    }
    return None;
  }
}
