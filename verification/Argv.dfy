// The command lines: mapToSliceConvert and appendParamToSlice of
// internal/controller/fenceagentsremediation_controller.go, and the status command of
// internal/controller/fenceagentsremediationtemplate_controller.go.
module Argv {
  import opened Basics
  import opened Params

  const STATUS := "status"

  // name=value, or the bare name when there is no value.
  function Token(name: string, val: string): string {
    if val == "" then name else name + "=" + val
  }

  // Reading a token back: the part before the first '=' and the part after it.
  function NameOf(token: string): string {
    if token == "" || token[0] == '=' then "" else [token[0]] + NameOf(token[1..])
  }

  function ValueOf(token: string): string {
    if token == "" then "" else if token[0] == '=' then token[1..] else ValueOf(token[1..])
  }

  // A later token overrides an earlier one of the same name.
  function Decode(argv: seq<string>): Dict {
    if argv == [] then map[]
    else Decode(argv[..|argv| - 1])[NameOf(argv[|argv| - 1]) := ValueOf(argv[|argv| - 1])]
  }

  lemma {:induction false} TokenReadsBack(name: string, val: string)
    requires '=' !in name
    ensures NameOf(Token(name, val)) == name && ValueOf(Token(name, val)) == val
  {
    if name != "" {
      TokenReadsBack(name[1..], val);
      assert Token(name, val)[1..] == Token(name[1..], val);
    }
  }

  lemma {:induction false} NamesHaveNoEquals(token: string)
    ensures '=' !in NameOf(token)
  {
    if token != "" && token[0] != '=' { NamesHaveNoEquals(token[1..]); }
  }

  lemma {:induction false} DecodedNamesHaveNoEquals(argv: seq<string>)
    ensures forall k :: k in Decode(argv) ==> '=' !in k
  {
    if argv != [] {
      DecodedNamesHaveNoEquals(argv[..|argv| - 1]);
      NamesHaveNoEquals(argv[|argv| - 1]);
    }
  }

  // Main result.  Whatever order the map is walked in, the fence command line reads back
  // as the parameters exactly when no name contains '='; it has one token a parameter.
  method MapToSliceConvert(params: Dict) returns (argv: seq<string>)
    ensures Decode(argv) == params <==> forall k :: k in params ==> '=' !in k
    ensures |argv| == |params|
    ensures forall k :: k in params ==> (if params[k] == "" then k else k + "=" + params[k]) in argv
  {
    argv := [];
    var todo := params.Keys;
    while todo != {}
      invariant todo <= params.Keys
      invariant |argv| + |todo| == |params.Keys|
      invariant forall k :: k in params && k !in todo ==> Token(k, params[k]) in argv
      invariant (forall k :: k in params ==> '=' !in k) ==>
                  Decode(argv) == map k | k in params && k !in todo :: params[k]
      decreases todo
    {
      var k :| k in todo;
      ghost var before := argv;
      argv := argv + [Token(k, params[k])];
      todo := todo - {k};
      assert argv[..|argv| - 1] == before;
      if '=' !in k { TokenReadsBack(k, params[k]); }
    }
    assert (map k | k in params && k !in todo :: params[k]) == params;
    DecodedNamesHaveNoEquals(argv);
    assert |params| == |params.Keys|;
  }

  // ---------------------------------------------------------------- the status command

  datatype Arg = Arg(name: string, val: string)

  function Words(pairs: seq<Arg>): seq<string> {
    if pairs == [] then []
    else
      var last := pairs[|pairs| - 1];
      Words(pairs[..|pairs| - 1]) + (if last.val == "" then [last.name] else [last.name, last.val])
  }

  // The pairs of a status command that has still to add the parameters in todo: --action
  // status, then each other parameter that is not an action, once.
  ghost predicate StatusPairs(pairs: seq<Arg>, params: Dict, todo: set<string>) {
    && 0 < |pairs| && pairs[0] == Arg("--action", "status")
    && (forall i, j :: 0 <= i < j < |pairs| ==> pairs[i].name != pairs[j].name)
    && (forall i :: 0 < i < |pairs| ==> pairs[i].name in params && pairs[i].val == params[pairs[i].name])
    && (forall i :: 0 < i < |pairs| ==> pairs[i].name !in todo + {"action", "--action"})
    && (forall k :: k in params && k !in todo + {"action", "--action"} ==> Arg(k, params[k]) in pairs)
  }

  lemma PairAdded(pairs: seq<Arg>, params: Dict, todo: set<string>, k: string)
    requires k in params && k in todo && StatusPairs(pairs, params, todo)
    ensures StatusPairs(if k == ACTION || k == DASHED_ACTION then pairs else pairs + [Arg(k, params[k])],
                        params, todo - {k})
    ensures Words(pairs + [Arg(k, params[k])]) == Words(pairs) + (if params[k] == "" then [k] else [k, params[k]])
  {
    assert (pairs + [Arg(k, params[k])])[..|pairs|] == pairs;
  }

  lemma PairsStart(params: Dict)
    ensures var pairs := [Arg(DASHED_ACTION, STATUS)];
            Words(pairs) == [DASHED_ACTION, STATUS] && StatusPairs(pairs, params, params.Keys)
  {
    assert [Arg(DASHED_ACTION, STATUS)][..0] == [];
    assert Words([]) == [];
  }

  ghost predicate IsStatusCommand(command: seq<string>, agent: string, params: Dict) {
    exists pairs: seq<Arg> :: command == [agent] + Words(pairs) && StatusPairs(pairs, params, {})
  }

  // Main result.  The status command names --action exactly once, with the value status,
  // and carries every other parameter of the node exactly once.
  method StatusCommand(agent: string, params: Dict) returns (command: seq<string>)
    ensures IsStatusCommand(command, agent, params)
  {
    command := [agent, DASHED_ACTION, STATUS];
    ghost var pairs := [Arg(DASHED_ACTION, STATUS)];
    PairsStart(params);
    hide StatusPairs, Words;
    var todo := params.Keys;
    while todo != {}
      invariant todo <= params.Keys
      invariant command == [agent] + Words(pairs) && StatusPairs(pairs, params, todo)
      decreases todo
    {
      var k :| k in todo;
      PairAdded(pairs, params, todo, k);
      todo := todo - {k};
      if k != ACTION && k != DASHED_ACTION {
        command := command + [k];
        if params[k] != "" { command := command + [params[k]]; }
        pairs := pairs + [Arg(k, params[k])];
      }
    }
  }
}
