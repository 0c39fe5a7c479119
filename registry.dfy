/**
 * The per-session `mcp_tools` dict: connection name -> the tools that connection
 * listed. Python dicts keep insertion order and an assignment to an existing key
 * keeps that key's position, so the dict is a sequence of entries with distinct names.
 */
module Registry {
  import opened Wrappers
  import opened ChatTypes

  datatype Entry = Entry(name: string, tools: seq<Tool>)

  /** No connection name occurs twice: the dict's keys. */
  ghost predicate DistinctNames(es: seq<Entry>) {
    forall i, j :: 0 <= i < j < |es| ==> es[i].name != es[j].name
  }

  /** `mcp_tools.get(name)`. */
  function Lookup(es: seq<Entry>, name: string): Option<seq<Tool>> {
    if es == [] then None
    else if es[0].name == name then Some(es[0].tools)
    else Lookup(es[1..], name)
  }

  /** `mcp_tools[name] = tools` on the entry sequence. */
  function Put(es: seq<Entry>, name: string, tools: seq<Tool>): (r: seq<Entry>)
    ensures Lookup(r, name) == Some(tools)
    ensures forall n :: n != name ==> Lookup(r, n) == Lookup(es, n)
    ensures forall k :: 0 <= k < |r| ==> r[k].name == name || r[k] in es
    ensures DistinctNames(es) ==> DistinctNames(r)
  {
    if es == [] then [Entry(name, tools)]
    else if es[0].name == name then [Entry(name, tools)] + es[1..]
    else
      var rest := Put(es[1..], name, tools);
      assert forall k :: 0 <= k < |rest| ==> rest[k].name == name || rest[k] in es by {
        forall k | 0 <= k < |rest| && rest[k].name != name ensures rest[k] in es {
          assert rest[k] in es[1..];
        }
      }
      [es[0]] + rest
  }

  /** An existing connection is replaced where it stands: the dict's order is unchanged. */
  lemma {:induction false} PutKeepsPosition(es: seq<Entry>, name: string, tools: seq<Tool>, i: nat)
    requires i < |es| && es[i].name == name
    requires forall j :: 0 <= j < i ==> es[j].name != name
    ensures Put(es, name, tools) == es[i := Entry(name, tools)]
  {
    if i > 0 {
      PutKeepsPosition(es[1..], name, tools, i - 1);
      assert [es[0]] + es[1..][i - 1 := Entry(name, tools)] == es[i := Entry(name, tools)];
    }
  }

  /** A new connection goes to the end. */
  lemma {:induction false} PutAppendsNew(es: seq<Entry>, name: string, tools: seq<Tool>)
    requires forall j :: 0 <= j < |es| ==> es[j].name != name
    ensures Put(es, name, tools) == es + [Entry(name, tools)]
  {
    if es != [] {
      PutAppendsNew(es[1..], name, tools);
      assert [es[0]] + (es[1..] + [Entry(name, tools)]) == es + [Entry(name, tools)];
    }
  }

  /** `any(tool.get("name") == func_name for tool in tools)`. */
  predicate HasTool(tools: seq<Tool>, funcName: string) {
    exists k :: 0 <= k < |tools| && tools[k].name == funcName
  }

  /** The connection that serves `funcName`: the first, in dict order, that lists it. */
  function ServerFor(es: seq<Entry>, funcName: string): Option<string> {
    if es == [] then None
    else if HasTool(es[0].tools, funcName) then Some(es[0].name)
    else ServerFor(es[1..], funcName)
  }

  /** Entry `i` is the first one that lists `funcName`. */
  ghost predicate IsFirstServer(es: seq<Entry>, funcName: string, i: int) {
    && 0 <= i < |es|
    && HasTool(es[i].tools, funcName)
    && forall j :: 0 <= j < i ==> !HasTool(es[j].tools, funcName)
  }

  lemma {:induction false} ServerForIsFirstMatch(es: seq<Entry>, funcName: string)
    ensures ServerFor(es, funcName).None? <==> forall i :: 0 <= i < |es| ==> !HasTool(es[i].tools, funcName)
    ensures ServerFor(es, funcName).Some? ==>
      exists i :: IsFirstServer(es, funcName, i) && es[i].name == ServerFor(es, funcName).value
  {
    if es != [] {
      if HasTool(es[0].tools, funcName) {
        assert IsFirstServer(es, funcName, 0);
      } else {
        ServerForIsFirstMatch(es[1..], funcName);
        if ServerFor(es[1..], funcName).Some? {
          var i :| IsFirstServer(es[1..], funcName, i) && es[1..][i].name == ServerFor(es[1..], funcName).value;
          assert IsFirstServer(es, funcName, i + 1);
        } else {
          assert forall i :: 1 <= i < |es| ==> !HasTool(es[i].tools, funcName) by {
            forall i | 1 <= i < |es| ensures !HasTool(es[i].tools, funcName) { assert es[i] == es[1..][i - 1]; }
          }
        }
      }
    }
  }

  /** The dict itself, kept in the user session and updated in place by `on_mcp_connect`. */
  class ToolRegistry {
    var entries: seq<Entry>

    ghost predicate Valid()
      reads this
    {
      DistinctNames(entries)
    }

    /** `cl.user_session.get("mcp_tools", {})` before any connection. */
    constructor ()
      ensures Valid() && entries == []
    {
      entries := [];
    }

    /** `mcp_tools[connection.name] = tools`. */
    method Register(name: string, tools: seq<Tool>)
      requires Valid()
      modifies this
      ensures Valid()
      ensures entries == Put(old(entries), name, tools)
      ensures Lookup(entries, name) == Some(tools)
      ensures forall n :: n != name ==> Lookup(entries, n) == Lookup(old(entries), n)
    {
      entries := Put(entries, name, tools);
    }
  }
}
