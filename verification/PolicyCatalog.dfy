/** The Backyard policy catalog: lane graphs compiled into the constraint lists of on-chain policies. */
module PolicyCatalog {
  import opened Wrappers

  datatype Stablecoin = Usdc | Usdg | Usds | Pyusd

  datatype RwaCollateral = OnycToken | PrimeToken | SyrupUsdcToken | AutoToken | UsdeToken

  datatype Market = Onre | Prime | Maple | Auto | Ethena

  datatype Operation = Deposit | Withdraw | Borrow | Repay

  datatype Lane = Lane(market: Market, collateral: RwaCollateral, debt: Stablecoin)

  type Pubkey = nat

  datatype LaneAccounts = LaneAccounts(
    klendProgram: Pubkey, vault: Pubkey, lendingMarket: Pubkey, collateralReserve: Pubkey, debtReserve: Pubkey,
    obligation: Pubkey, lendingMarketAuthority: Pubkey, collateralSupply: Pubkey, debtLiquiditySupply: Pubkey,
    collateralCustody: Pubkey, debtCustody: Pubkey, collateralTokenProgram: Pubkey, debtTokenProgram: Pubkey)

  datatype InstructionLayout = InstructionLayout(
    tag: Byte, marketIndex: Byte, collateralReserveIndex: Byte, debtReserveIndex: Byte, obligationIndex: Byte,
    vaultIndex: Byte, authorityIndex: Byte, collateralSupplyIndex: Byte, debtSupplyIndex: Byte,
    collateralCustodyIndex: Byte, debtCustodyIndex: Byte, collateralTokenProgramIndex: Byte, debtTokenProgramIndex: Byte)

  datatype Choice = Choice(operation: Operation, layout: InstructionLayout)

  datatype LaneGraph = LaneGraph(accounts: LaneAccounts, layouts: seq<Choice>)

  type Graph = map<Lane, LaneGraph>

  datatype CatalogError = IncompleteLaneGraph | NoSafePackingRung

  function Lanes(): seq<Lane> {
    [ Lane(Onre, OnycToken, Usdc), Lane(Onre, OnycToken, Usdg), Lane(Onre, OnycToken, Usds),
      Lane(Prime, PrimeToken, Usdc), Lane(Prime, PrimeToken, Pyusd), Lane(Prime, PrimeToken, Usds),
      Lane(Maple, SyrupUsdcToken, Usdc), Lane(Maple, SyrupUsdcToken, Usdg), Lane(Maple, SyrupUsdcToken, Pyusd),
      Lane(Auto, AutoToken, Pyusd), Lane(Ethena, UsdeToken, Pyusd) ]
  }

  // ----- Constraints and what they permit -----

  datatype AccountConstraint = AccountConstraint(index: Byte, pubkeys: seq<Pubkey>)

  datatype U8Equals = U8Equals(offset: nat, value: Byte)

  datatype Constraint = Constraint(program: Pubkey, accounts: seq<AccountConstraint>, data: seq<U8Equals>)

  datatype Instruction = Instruction(program: Pubkey, accounts: seq<Pubkey>, data: seq<Byte>)

  predicate Matches(c: Constraint, ix: Instruction) {
    && ix.program == c.program
    && (forall i :: 0 <= i < |c.accounts| ==> AccountListed(c.accounts[i], ix))
    && (forall i :: 0 <= i < |c.data| ==> c.data[i].offset < |ix.data| && ix.data[c.data[i].offset] == c.data[i].value)
  }

  predicate AccountListed(a: AccountConstraint, ix: Instruction) {
    a.index < |ix.accounts| && ix.accounts[a.index] in a.pubkeys
  }

  ghost predicate Permits(policy: seq<Constraint>, ix: Instruction) {
    exists c :: c in policy && Matches(c, ix)
  }

  function ConstraintOf(a: LaneAccounts, l: InstructionLayout): Constraint {
    Constraint(a.klendProgram,
               [ AccountConstraint(l.vaultIndex, [a.vault]),
                 AccountConstraint(l.marketIndex, [a.lendingMarket]),
                 AccountConstraint(l.collateralReserveIndex, [a.collateralReserve]),
                 AccountConstraint(l.debtReserveIndex, [a.debtReserve]),
                 AccountConstraint(l.obligationIndex, [a.obligation]),
                 AccountConstraint(l.authorityIndex, [a.lendingMarketAuthority]),
                 AccountConstraint(l.collateralSupplyIndex, [a.collateralSupply]),
                 AccountConstraint(l.debtSupplyIndex, [a.debtLiquiditySupply]),
                 AccountConstraint(l.collateralCustodyIndex, [a.collateralCustody]),
                 AccountConstraint(l.debtCustodyIndex, [a.debtCustody]),
                 AccountConstraint(l.collateralTokenProgramIndex, [a.collateralTokenProgram]),
                 AccountConstraint(l.debtTokenProgramIndex, [a.debtTokenProgram]) ],
               [U8Equals(0, l.tag)])
  }

  predicate AccountAt(ix: Instruction, index: Byte, key: Pubkey) {
    index < |ix.accounts| && ix.accounts[index] == key
  }

  /** The instruction names exactly the lane's accounts, each in its role, and starts with the operation's tag. */
  predicate Exact(a: LaneAccounts, l: InstructionLayout, ix: Instruction) {
    && ix.program == a.klendProgram
    && |ix.data| > 0 && ix.data[0] == l.tag
    && AccountAt(ix, l.vaultIndex, a.vault)
    && AccountAt(ix, l.marketIndex, a.lendingMarket)
    && AccountAt(ix, l.collateralReserveIndex, a.collateralReserve)
    && AccountAt(ix, l.debtReserveIndex, a.debtReserve)
    && AccountAt(ix, l.obligationIndex, a.obligation)
    && AccountAt(ix, l.authorityIndex, a.lendingMarketAuthority)
    && AccountAt(ix, l.collateralSupplyIndex, a.collateralSupply)
    && AccountAt(ix, l.debtSupplyIndex, a.debtLiquiditySupply)
    && AccountAt(ix, l.collateralCustodyIndex, a.collateralCustody)
    && AccountAt(ix, l.debtCustodyIndex, a.debtCustody)
    && AccountAt(ix, l.collateralTokenProgramIndex, a.collateralTokenProgram)
    && AccountAt(ix, l.debtTokenProgramIndex, a.debtTokenProgram)
  }

  lemma Twelve(accounts: seq<AccountConstraint>, ix: Instruction)
    requires |accounts| == 12
    ensures (forall i :: 0 <= i < |accounts| ==> AccountListed(accounts[i], ix)) <==>
      && AccountListed(accounts[0], ix) && AccountListed(accounts[1], ix) && AccountListed(accounts[2], ix)
      && AccountListed(accounts[3], ix) && AccountListed(accounts[4], ix) && AccountListed(accounts[5], ix)
      && AccountListed(accounts[6], ix) && AccountListed(accounts[7], ix) && AccountListed(accounts[8], ix)
      && AccountListed(accounts[9], ix) && AccountListed(accounts[10], ix) && AccountListed(accounts[11], ix)
  {
    hide AccountListed;
  }

  lemma MatchesExactly(a: LaneAccounts, l: InstructionLayout, ix: Instruction)
    ensures Matches(ConstraintOf(a, l), ix) <==> Exact(a, l, ix)
  {
    var c := ConstraintOf(a, l);
    Twelve(c.accounts, ix);
    assert |c.data| == 1 && c.data[0] == U8Equals(0, l.tag);
  }

  // ----- Which layouts an operation list selects -----

  function Selected(layouts: seq<Choice>, operations: set<Operation>): seq<Choice> {
    if layouts == [] then []
    else
      var last := layouts[|layouts| - 1];
      Selected(layouts[..|layouts| - 1], operations) + if last.operation in operations then [last] else []
  }

  function Count(layouts: seq<Choice>, operation: Operation): nat {
    if layouts == [] then 0
    else Count(layouts[..|layouts| - 1], operation) + if layouts[|layouts| - 1].operation == operation then 1 else 0
  }

  predicate NoRepeat(layouts: seq<Choice>) {
    forall i, j :: 0 <= i < j < |layouts| ==> layouts[i].operation != layouts[j].operation
  }

  lemma {:induction false} SelectedMembers(layouts: seq<Choice>, operations: set<Operation>, x: Choice)
    ensures x in Selected(layouts, operations) <==> x in layouts && x.operation in operations
  {
    if layouts != [] {
      SelectedMembers(layouts[..|layouts| - 1], operations, x);
    }
  }

  function One(operations: set<Operation>, layouts: seq<Choice>, operation: Operation): nat {
    if operation in operations then Count(layouts, operation) else 0
  }

  /** Every selected layout is counted under its own operation. */
  lemma {:induction false} SelectedSize(layouts: seq<Choice>, operations: set<Operation>)
    ensures |Selected(layouts, operations)| ==
      One(operations, layouts, Deposit) + One(operations, layouts, Withdraw) + One(operations, layouts, Borrow) + One(operations, layouts, Repay)
  {
    if layouts != [] {
      var init, last := layouts[..|layouts| - 1], layouts[|layouts| - 1];
      SelectedSize(init, operations);
      assert forall op :: One(operations, layouts, op)
                       == One(operations, init, op) + if op == last.operation && op in operations then 1 else 0;
      match last.operation { case Deposit => case Withdraw => case Borrow => case Repay => }
    }
  }

  function InSet(operations: set<Operation>, operation: Operation): nat {
    if operation in operations then 1 else 0
  }

  lemma OperationsSize(operations: set<Operation>)
    ensures |operations| == InSet(operations, Deposit) + InSet(operations, Withdraw) + InSet(operations, Borrow) + InSet(operations, Repay)
  {
    var rest := operations - {Deposit} - {Withdraw} - {Borrow} - {Repay};
    forall op | op in rest ensures false {
      match op { case Deposit => case Withdraw => case Borrow => case Repay => }
    }
    assert |operations| == |operations - {Deposit}| + InSet(operations, Deposit);
    assert |operations - {Deposit}| == |operations - {Deposit} - {Withdraw}| + InSet(operations, Withdraw);
    assert |operations - {Deposit} - {Withdraw}| == |operations - {Deposit} - {Withdraw} - {Borrow}| + InSet(operations, Borrow);
    assert |operations - {Deposit} - {Withdraw} - {Borrow}| == |rest| + InSet(operations, Repay);
    assert rest == {};
  }

  lemma {:induction false} CountOfMember(layouts: seq<Choice>, x: Choice)
    ensures x in layouts ==> Count(layouts, x.operation) >= 1
  {
    if layouts != [] {
      CountOfMember(layouts[..|layouts| - 1], x);
    }
  }

  lemma {:induction false} CountHasMember(layouts: seq<Choice>, operation: Operation)
    ensures Count(layouts, operation) >= 1 ==> exists x :: x in layouts && x.operation == operation
  {
    if layouts != [] {
      var last := layouts[|layouts| - 1];
      assert last in layouts;
      CountHasMember(layouts[..|layouts| - 1], operation);
      if Count(layouts[..|layouts| - 1], operation) >= 1 {
        var x :| x in layouts[..|layouts| - 1] && x.operation == operation;
        assert x in layouts;
      }
    }
  }

  /** The duplicate check looks at the selected layouts only. */
  lemma {:induction false} NoRepeatIsCount(layouts: seq<Choice>, operations: set<Operation>)
    ensures NoRepeat(Selected(layouts, operations)) <==> forall op :: op in operations ==> Count(layouts, op) <= 1
  {
    if layouts != [] {
      var init, last := layouts[..|layouts| - 1], layouts[|layouts| - 1];
      NoRepeatIsCount(init, operations);
      assert forall op :: Count(layouts, op) == Count(init, op) + if op == last.operation then 1 else 0;
      if last.operation in operations {
        NoRepeatStep(init, last, operations);
      } else {
        assert Selected(layouts, operations) == Selected(init, operations);
      }
      assert (forall op :: op in operations ==> Count(layouts, op) <= 1) <==>
             (forall op :: op in operations ==> Count(init, op) + (if op == last.operation then 1 else 0) <= 1);
    }
  }

  lemma NoRepeatStep(init: seq<Choice>, last: Choice, operations: set<Operation>)
    requires last.operation in operations
    ensures NoRepeat(Selected(init, operations) + [last]) <==> NoRepeat(Selected(init, operations)) && Count(init, last.operation) == 0
  {
    hide Selected, Count;
    var selected := Selected(init, operations);
    if Count(init, last.operation) >= 1 {
      CountHasMember(init, last.operation);
      var x :| x in init && x.operation == last.operation;
      SelectedMembers(init, operations, x);
      var k :| 0 <= k < |selected| && selected[k] == x;
      assert (selected + [last])[k].operation == (selected + [last])[|selected|].operation;
    } else {
      forall k | 0 <= k < |selected| ensures selected[k].operation != last.operation {
        SelectedMembers(init, operations, selected[k]);
        CountOfMember(init, selected[k]);
      }
    }
    assert forall i :: 0 <= i < |selected| ==> (selected + [last])[i] == selected[i];
  }
}
