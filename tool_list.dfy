/**
 * The tool list `main` sends with every run: every connection's tools, wrapped as
 * function entries, the device-configuring tool removed for users outside the two
 * operator domains, and the hosted `file_search` tool appended.
 */
module ToolList {
  import opened Wrappers
  import opened ChatTypes
  import opened Strings
  import opened Sequences
  import Registry

  /** `{"type": "function", "function": tool}` or `{"type": "file_search"}`. */
  datatype ToolEntry = FunctionTool(tool: Tool) | FileSearch

  const CONFIG_TOOL_NAME: string := "set_config_commands_and_commit_or_save"
  const OPERATOR_DOMAIN: string := "@interop-tokyo.net"
  const UNIVERSITY_DOMAIN: string := "@g.ecc.u-tokyo.ac.jp"

  function TotalLength<T>(xss: seq<seq<T>>): nat {
    if xss == [] then 0 else |xss[0]| + TotalLength(xss[1..])
  }

  /** `flatten(xss)`: the lists one after another, in order. */
  function Flatten<T>(xss: seq<seq<T>>): (r: seq<T>)
    ensures |r| == TotalLength(xss)
  {
    if xss == [] then [] else xss[0] + Flatten(xss[1..])
  }

  lemma {:induction false} FlattenAppend<T>(a: seq<seq<T>>, b: seq<seq<T>>)
    ensures Flatten(a + b) == Flatten(a) + Flatten(b)
  {
    if a != [] {
      assert (a + b)[1..] == a[1..] + b;
      FlattenAppend(a[1..], b);
    } else {
      assert a + b == b;
    }
  }

  lemma {:induction false} FlattenMembership<T>(xss: seq<seq<T>>, x: T)
    ensures x in Flatten(xss) <==> exists i :: 0 <= i < |xss| && x in xss[i]
  {
    if xss != [] {
      FlattenMembership(xss[1..], x);
      if x in Flatten(xss[1..]) {
        var i :| 0 <= i < |xss[1..]| && x in xss[1..][i];
        assert x in xss[i + 1];
      }
      if exists i :: 0 <= i < |xss| && x in xss[i] {
        var i :| 0 <= i < |xss| && x in xss[i];
        if i > 0 { assert x in xss[1..][i - 1]; }
      }
    }
  }

  /** `[tools for _, tools in mcp_tools.items()]`. */
  function ToolLists(es: seq<Registry.Entry>): (r: seq<seq<Tool>>)
    ensures |r| == |es| && forall i :: 0 <= i < |es| ==> r[i] == es[i].tools
  {
    seq(|es|, i requires 0 <= i < |es| => es[i].tools)
  }

  /** Entry `i` of the per-connection lists is what the dict holds under the `i`-th connection name. */
  lemma ToolListsMatchLookup(es: seq<Registry.Entry>, n: string, ts: seq<Tool>)
    requires Registry.DistinctNames(es)
    ensures Registry.Lookup(es, n) == Some(ts) <==>
      exists i :: 0 <= i < |es| && es[i].name == n && ToolLists(es)[i] == ts
  {
  }

  /** `[{"type": "function", "function": tool} for tool in tools]`. */
  function Wrap(ts: seq<Tool>): (r: seq<ToolEntry>)
    ensures |r| == |ts| && forall i :: 0 <= i < |ts| ==> r[i] == FunctionTool(ts[i])
  {
    seq(|ts|, i requires 0 <= i < |ts| => FunctionTool(ts[i]))
  }

  /** The tools behind the function entries, in order. */
  function FunctionsOf(es: seq<ToolEntry>): seq<Tool> {
    if es == [] then []
    else match es[0]
      case FunctionTool(t) => [t] + FunctionsOf(es[1..])
      case FileSearch => FunctionsOf(es[1..])
  }

  lemma {:induction false} WrapRoundTrip(ts: seq<Tool>)
    ensures FunctionsOf(Wrap(ts)) == ts
    ensures FileSearch !in Wrap(ts)
  {
    if ts != [] {
      assert Wrap(ts)[1..] == Wrap(ts[1..]);
      WrapRoundTrip(ts[1..]);
    }
  }

  predicate IsConfigTool(e: ToolEntry) {
    e.FunctionTool? && e.tool.name == CONFIG_TOOL_NAME
  }

  /** The comprehension that drops every function entry named CONFIG_TOOL_NAME. */
  function RemoveConfigTool(es: seq<ToolEntry>): (r: seq<ToolEntry>)
    ensures forall e :: e in r ==> e in es && !IsConfigTool(e)
  {
    if es == [] then []
    else if IsConfigTool(es[0]) then RemoveConfigTool(es[1..])
    else [es[0]] + RemoveConfigTool(es[1..])
  }

  lemma {:induction false} RemoveConfigToolKeepsOrder(es: seq<ToolEntry>)
    ensures IsSubsequence(RemoveConfigTool(es), es)
  {
    if es != [] {
      RemoveConfigToolKeepsOrder(es[1..]);
      if !IsConfigTool(es[0]) {
        assert RemoveConfigTool(es)[1..] == RemoveConfigTool(es[1..]);
      }
    }
  }

  /** Only the configuring tool goes: every other entry keeps its multiplicity. */
  lemma {:induction false} RemoveConfigToolKeepsOthers(es: seq<ToolEntry>, e: ToolEntry)
    requires !IsConfigTool(e)
    ensures multiset(RemoveConfigTool(es))[e] == multiset(es)[e]
  {
    if es != [] {
      RemoveConfigToolKeepsOthers(es[1..], e);
      assert es == [es[0]] + es[1..];
      assert multiset(es) == multiset([es[0]]) + multiset(es[1..]);
    }
  }

  lemma {:induction false} RemoveConfigToolIdentity(es: seq<ToolEntry>)
    requires forall k :: 0 <= k < |es| ==> !IsConfigTool(es[k])
    ensures RemoveConfigTool(es) == es
  {
    if es != [] {
      RemoveConfigToolIdentity(es[1..]);
      assert [es[0]] + es[1..] == es;
    }
  }

  predicate IsPrivileged(identifier: string) {
    EndsWith(identifier, OPERATOR_DOMAIN) || EndsWith(identifier, UNIVERSITY_DOMAIN)
  }

  /** `user and not (identifier ends with either domain)`. */
  predicate HidesConfigTool(user: Option<User>) {
    user.Some? && !IsPrivileged(user.value.identifier)
  }

  function FilterForUser(es: seq<ToolEntry>, user: Option<User>): seq<ToolEntry> {
    if HidesConfigTool(user) then RemoveConfigTool(es) else es
  }

  /** `if not [t for t in tools if t["type"] == "file_search"]: tools.append({"type": "file_search"})`. */
  function EnsureFileSearch(es: seq<ToolEntry>): (r: seq<ToolEntry>)
    ensures FileSearch in r && |es| <= |r| && r[..|es|] == es
    ensures |r| == |es| + (if FileSearch in es then 0 else 1)
  {
    if FileSearch in es then es else es + [FileSearch]
  }

  /** Every connection's tools, in connection order, each wrapped as a function entry. */
  function AllFunctionTools(es: seq<Registry.Entry>): seq<ToolEntry> {
    Wrap(Flatten(ToolLists(es)))
  }

  /** The list `main` passes as `tools=` to the run. */
  function AssembleTools(es: seq<Registry.Entry>, user: Option<User>): (r: seq<ToolEntry>)
    ensures |r| >= 1 && r[|r| - 1] == FileSearch
    ensures forall i :: 0 <= i < |r| - 1 ==> r[i].FunctionTool?
    ensures multiset(r)[FileSearch] == 1
  {
    var filtered := FilterForUser(AllFunctionTools(es), user);
    assert FileSearch !in filtered;
    assert filtered + [FileSearch] == EnsureFileSearch(filtered);
    assert multiset(filtered + [FileSearch]) == multiset(filtered) + multiset{FileSearch};
    EnsureFileSearch(filtered)
  }

  /** Before `file_search` is added: `|tools|` is the sum of the per-connection list lengths. */
  lemma AllFunctionToolsLength(es: seq<Registry.Entry>)
    ensures |AllFunctionTools(es)| == TotalLength(ToolLists(es))
  {
  }

  /** The user filter: what is removed, and when nothing is. */
  lemma AssembleToolsFilter(es: seq<Registry.Entry>, user: Option<User>)
    ensures var r := AssembleTools(es, user);
      && (HidesConfigTool(user) ==> forall k :: 0 <= k < |r| ==> !IsConfigTool(r[k]))
      && (!HidesConfigTool(user) ==> r == AllFunctionTools(es) + [FileSearch])
      && IsSubsequence(r[..|r| - 1], AllFunctionTools(es))
      && forall e :: !IsConfigTool(e) && e != FileSearch ==> multiset(r)[e] == multiset(AllFunctionTools(es))[e]
  {
    var all := AllFunctionTools(es);
    var filtered := FilterForUser(all, user);
    var r := AssembleTools(es, user);
    WrapRoundTrip(Flatten(ToolLists(es)));
    assert r == filtered + [FileSearch];
    assert r[..|r| - 1] == filtered;
    RemoveConfigToolKeepsOrder(all);
    SubsequenceReflexive(all);
    forall e | !IsConfigTool(e) && e != FileSearch
      ensures multiset(r)[e] == multiset(all)[e]
    {
      RemoveConfigToolKeepsOthers(all, e);
      assert multiset(r) == multiset(filtered) + multiset{FileSearch};
    }
  }

  /** Which tools are offered: any tool of any connection, save the configuring tool when it is hidden. */
  lemma AssembleToolsOffers(es: seq<Registry.Entry>, user: Option<User>, t: Tool)
    ensures FunctionTool(t) in AssembleTools(es, user) <==>
      (exists i :: 0 <= i < |es| && t in es[i].tools) && !(HidesConfigTool(user) && t.name == CONFIG_TOOL_NAME)
  {
    var all := AllFunctionTools(es);
    var r := AssembleTools(es, user);
    AssembleToolsFilter(es, user);
    FlattenMembership(ToolLists(es), t);
    assert FunctionTool(t) in all <==> t in Flatten(ToolLists(es));
    if t.name != CONFIG_TOOL_NAME || !HidesConfigTool(user) {
      if HidesConfigTool(user) {
        assert multiset(r)[FunctionTool(t)] == multiset(all)[FunctionTool(t)];
      }
    }
  }
}
