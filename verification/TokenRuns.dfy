/** The token store over any run of GenerateToken and DeleteToken, for any clusters in any order. */
module TokenRuns {
  import opened Prelude
  import opened Roles
  import opened Tokens

  datatype TokenOp =
    | Generated(name: string, registerName: string, roles: seq<string>, t0: int)
    | Deleted(registerName: string)

  function ApplyOp(tokens: seq<Token>, op: TokenOp): seq<Token> {
    match op
    case Generated(name, registerName, roles, t0) => Upsert(tokens, NewToken(name, registerName, roles, t0))
    case Deleted(registerName) => DeleteOneLabelled(tokens, registerName)
  }

  function Stored(tokens: seq<Token>, ops: seq<TokenOp>): seq<Token> {
    if ops == [] then tokens else ApplyOp(Stored(tokens, ops[..|ops| - 1]), ops[|ops| - 1])
  }

  /** Every generated name is new to the store. */
  predicate NewNames(tokens: seq<Token>, ops: seq<TokenOp>) {
    ops == []
    || (NewNames(tokens, ops[..|ops| - 1])
        && (ops[|ops| - 1].Generated? ==> !HasName(Stored(tokens, ops[..|ops| - 1]), ops[|ops| - 1].name)))
  }

  /** The tokens of one label seen on their own: generation joins the end, deletion leaves from the front. */
  function Queue(start: seq<Token>, ops: seq<TokenOp>, own: string): seq<Token> {
    if ops == [] then start
    else
      var queue := Queue(start, ops[..|ops| - 1], own);
      match ops[|ops| - 1]
      case Generated(name, registerName, roles, t0) =>
        if registerName == own then queue + [NewToken(name, registerName, roles, t0)] else queue
      case Deleted(registerName) =>
        if registerName == own && queue != [] then queue[1..] else queue
  }

  function Upserts(ops: seq<TokenOp>, own: string): nat {
    if ops == [] then 0
    else
      var op := ops[|ops| - 1];
      Upserts(ops[..|ops| - 1], own) + if op.Generated? && op.registerName == own then 1 else 0
  }

  /** Deletions that found a token. */
  function EffectiveDeletes(tokens: seq<Token>, ops: seq<TokenOp>, own: string): nat {
    if ops == [] then 0
    else
      var rest, op := ops[..|ops| - 1], ops[|ops| - 1];
      var found := op.Deleted? && op.registerName == own && Labelled(Stored(tokens, rest), own) != [];
      EffectiveDeletes(tokens, rest, own) + if found then 1 else 0
  }

  lemma NewTokenLabel(name: string, registerName: string, roles: seq<string>, t0: int, own: string)
    ensures var t := NewToken(name, registerName, roles, t0);
            Labelled([t], own) == if registerName == own then [t] else []
  {
  }

  lemma UniqueAfterAppend(tokens: seq<Token>, t: Token)
    requires UniqueNames(tokens) && !HasName(tokens, t.name)
    ensures UniqueNames(tokens + [t])
  {
  }

  /** What a deletion under one label does to another: nothing. */
  lemma OtherLabelKept(tokens: seq<Token>, registerName: string, own: string)
    requires UniqueNames(tokens) && registerName != own
    ensures Labelled(DeleteOneLabelled(tokens, registerName), own) == Labelled(tokens, own)
  {
    DeleteOneAccounting(tokens, registerName);
    OtherLabel(tokens, registerName, own);
    OtherLabel(DeleteOneLabelled(tokens, registerName), registerName, own);
  }

  /** Label by label the store is a queue, and it holds what was generated less what deletions found. */
  lemma {:induction false} StoreIsQueues(tokens: seq<Token>, ops: seq<TokenOp>, own: string)
    requires UniqueNames(tokens) && NewNames(tokens, ops)
    ensures UniqueNames(Stored(tokens, ops))
    ensures Labelled(Stored(tokens, ops), own) == Queue(Labelled(tokens, own), ops, own)
    ensures |Labelled(Stored(tokens, ops), own)| + EffectiveDeletes(tokens, ops, own)
         == |Labelled(tokens, own)| + Upserts(ops, own)
  {
    if ops != [] {
      var rest, op := ops[..|ops| - 1], ops[|ops| - 1];
      var before := Stored(tokens, rest);
      StoreIsQueues(tokens, rest, own);
      match op
      case Generated(name, registerName, roles, t0) =>
        var t := NewToken(name, registerName, roles, t0);
        UpsertOfNewName(before, t);
        UniqueAfterAppend(before, t);
        LabelledConcat(before, [t], own);
        NewTokenLabel(name, registerName, roles, t0, own);
      case Deleted(registerName) =>
        DeleteOneUnique(before, registerName);
        DeleteOneAccounting(before, registerName);
        if registerName != own {
          OtherLabelKept(before, registerName, own);
        }
    }
  }

  // --- A generated token stays -----------------------------------------------------------------------------

  lemma {:induction false} UpsertHolds(tokens: seq<Token>, t: Token)
    ensures t in Upsert(tokens, t)
  {
    if tokens != [] {
      UpsertHolds(tokens[1..], t);
    }
  }

  lemma {:induction false} LabelledMember(tokens: seq<Token>, t: Token)
    ensures t in Labelled(tokens, ClusterLabel(t)) <==> t in tokens
  {
    if tokens != [] {
      LabelledMember(tokens[1..], t);
      assert tokens == [tokens[0]] + tokens[1..];
    }
  }

  /** No operation deletes under that label. */
  predicate Spares(ops: seq<TokenOp>, own: string) {
    forall i :: 0 <= i < |ops| && ops[i].Deleted? ==> ops[i].registerName != own
  }

  /** A stored token survives upserts under new names and deletions under other labels. */
  lemma {:induction false} StaysStored(tokens: seq<Token>, first: seq<TokenOp>, after: seq<TokenOp>, t: Token)
    requires UniqueNames(tokens) && NewNames(tokens, first + after) && Spares(after, ClusterLabel(t))
    requires t in Stored(tokens, first)
    ensures t in Stored(tokens, first + after)
  {
    if after == [] {
      assert first + after == first;
    } else {
      var rest, op, ops := after[..|after| - 1], after[|after| - 1], first + after;
      assert ops[..|ops| - 1] == first + rest && ops[|ops| - 1] == op;
      StaysStored(tokens, first, rest, t);
      StoreIsQueues(tokens, first + rest, ClusterLabel(t));
      var before := Stored(tokens, first + rest);
      match op
      case Generated(name, registerName, roles, t0) =>
        UpsertOfNewName(before, NewToken(name, registerName, roles, t0));
      case Deleted(registerName) =>
        OtherLabelKept(before, registerName, ClusterLabel(t));
        LabelledMember(before, t);
        LabelledMember(DeleteOneLabelled(before, registerName), t);
    }
  }

  /** Generate, then validate, over any run: whatever came before, and whatever is generated for whomever or deleted
      under other labels after, the check on the joined role string accepts the token for exactly 720 hours. */
  lemma GeneratedTokenStaysValid(tokens: seq<Token>, before: seq<TokenOp>, op: TokenOp, after: seq<TokenOp>, now: int)
    requires op.Generated? && IsRoleList(op.roles) && Distinct(op.roles)
    requires UniqueNames(tokens) && NewNames(tokens, before + [op] + after) && Spares(after, op.registerName)
    ensures ParseRoles(RolesToString(op.roles)).Some?
    ensures var expected := ParseRoles(RolesToString(op.roles)).value;
            IsTokenValid(Stored(tokens, before + [op] + after), op.registerName, op.name, expected, now)
            <==> now < op.t0 + 720 * HOUR
  {
    var first, t := before + [op], NewToken(op.name, op.registerName, op.roles, op.t0);
    assert first[..|first| - 1] == before;
    UpsertHolds(Stored(tokens, before), t);
    StaysStored(tokens, first, after, t);
    StoreIsQueues(tokens, first + after, op.registerName);
    GeneratedTokenIsValid(Stored(tokens, first + after), op.name, op.registerName, op.roles, op.t0, now);
  }
}
