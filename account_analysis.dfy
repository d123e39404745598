/**
 * The external-access agent (agents/aws_account_analysis.py): principal
 * extraction from policy documents, the sts:ExternalId audit of trust
 * policies, per-account categorisation of IAM roles and S3 buckets, the
 * merge of the two result families and the summary metrics, and the
 * construction of the known-vendor and trusted-account reference tables.
 * The AWS calls are inputs: roles and bucket policies arrive already
 * fetched, together with the caller's account ID and the alias table.
 */
module AccountAnalysis {
  import opened Wrappers
  import opened JsonValue
  import opened Strings

  // ---------------------------------------------------------------------
  // Principal extraction
  // ---------------------------------------------------------------------

  /**
   * The account ID carried by one string found under an "AWS" key: an ARN
   * gives its fifth colon-separated field, a bare string is taken whole; in
   * both cases only when it is twelve digits.
   */
  function PrincipalAccount(v: string): (r: Option<string>)
    ensures r.Some? ==> IsAccountId(r.value)
  {
    if Contains(v, "arn:aws") then
      var parts := Split(v, ':');
      if |parts| >= 5 && IsAccountId(parts[4]) then Some(parts[4]) else None
    else if IsAccountId(v) then Some(v)
    else None
  }

  /** The account IDs a value under an "AWS" key names: a string, or the strings of a list. */
  function PrincipalIds(v: Json): (ids: set<string>)
  {
    match v
    case Str(s) => if PrincipalAccount(s).Some? then {PrincipalAccount(s).value} else {}
    case Arr(items) =>
      set i | 0 <= i < |items| && items[i].Str? && PrincipalAccount(items[i].s).Some?
        :: PrincipalAccount(items[i].s).value
    case _ => {}
  }

  /**
   * Reference definition of what the walker finds: the union, over every
   * "AWS" key reachable through other keys and list elements, of the IDs its
   * value names.
   */
  function AccountIds(node: Json): set<string>
    decreases node, 1
  {
    match node
    case Obj(fields) => FieldsIds(fields)
    case Arr(items) => ItemsIds(items)
    case _ => {}
  }

  function FieldsIds(fields: seq<(string, Json)>): set<string>
    decreases fields, 0
  {
    if |fields| == 0 then {}
    else
      var (k, v) := fields[|fields| - 1];
      assert v < fields[|fields| - 1];
      FieldsIds(fields[..|fields| - 1]) + (if k == "AWS" then PrincipalIds(v) else AccountIds(v))
  }

  function ItemsIds(items: seq<Json>): set<string>
    decreases items, 0
  {
    if |items| == 0 then {} else ItemsIds(items[..|items| - 1]) + AccountIds(items[|items| - 1])
  }

  /** What the walker adds for the value of an "AWS" key, in order. */
  function CollectPrincipal(v: Json, found: seq<string>): seq<string>
  {
    match v
    case Str(s) => if PrincipalAccount(s).Some? then Add(found, PrincipalAccount(s).value) else found
    case Arr(items) => CollectPrincipalItems(items, found)
    case _ => found
  }

  function CollectPrincipalItems(items: seq<Json>, found: seq<string>): seq<string>
    decreases |items|
  {
    if |items| == 0 then found
    else
      var found' := if items[0].Str? && PrincipalAccount(items[0].s).Some?
                    then Add(found, PrincipalAccount(items[0].s).value) else found;
      CollectPrincipalItems(items[1..], found')
  }

  /**
   * The walker itself, as a function: the IDs found so far, extended in
   * traversal order with the new ones of `node` (the Python `found` set, kept
   * as a duplicate-free sequence).
   */
  function CollectIds(node: Json, found: seq<string>): seq<string>
    decreases node, 1
  {
    match node
    case Obj(fields) => CollectFields(fields, found)
    case Arr(items) => CollectItems(items, found)
    case _ => found
  }

  function CollectFields(fields: seq<(string, Json)>, found: seq<string>): seq<string>
    decreases fields, 0
  {
    if |fields| == 0 then found
    else
      var (k, v) := fields[0];
      assert v < fields[0];
      var found' := if k == "AWS" then CollectPrincipal(v, found) else CollectIds(v, found);
      CollectFields(fields[1..], found')
  }

  function CollectItems(items: seq<Json>, found: seq<string>): seq<string>
    decreases items, 0
  {
    if |items| == 0 then found else CollectItems(items[1..], CollectIds(items[0], found))
  }

  /** The list `extract_account_ids(doc)` returns. */
  function AccountIdList(doc: Json): seq<string> {
    CollectIds(doc, [])
  }

  // ---- the walker keeps a duplicate-free list whose elements are the reference set

  lemma {:induction false} CollectPrincipalItemsSound(items: seq<Json>, found: seq<string>)
    requires NoDup(found)
    ensures NoDup(CollectPrincipalItems(items, found))
    ensures found <= CollectPrincipalItems(items, found)
    ensures forall x :: x in CollectPrincipalItems(items, found) <==> x in found || x in PrincipalIds(Arr(items))
    decreases |items|
  {
    if |items| > 0 {
      var found' := if items[0].Str? && PrincipalAccount(items[0].s).Some?
                    then Add(found, PrincipalAccount(items[0].s).value) else found;
      CollectPrincipalItemsSound(items[1..], found');
      forall x ensures x in PrincipalIds(Arr(items)) <==>
        x in PrincipalIds(Arr(items[1..])) || (items[0].Str? && PrincipalAccount(items[0].s) == Some(x))
      {
        if x in PrincipalIds(Arr(items)) {
          var i :| 0 <= i < |items| && items[i].Str? && PrincipalAccount(items[i].s) == Some(x);
          if i > 0 {
            assert items[1..][i - 1] == items[i];
          }
        }
        if x in PrincipalIds(Arr(items[1..])) {
          var i :| 0 <= i < |items[1..]| && items[1..][i].Str? && PrincipalAccount(items[1..][i].s) == Some(x);
          assert items[i + 1] == items[1..][i];
        }
      }
    }
  }

  lemma {:induction false} CollectIdsSound(node: Json, found: seq<string>)
    requires NoDup(found)
    ensures NoDup(CollectIds(node, found))
    ensures found <= CollectIds(node, found)
    ensures forall x :: x in CollectIds(node, found) <==> x in found || x in AccountIds(node)
    decreases node, 1
  {
    match node
    case Obj(fields) => CollectFieldsSound(fields, found);
    case Arr(items) => CollectItemsSound(items, found);
    case _ =>
  }

  lemma {:induction false} CollectFieldsSound(fields: seq<(string, Json)>, found: seq<string>)
    requires NoDup(found)
    ensures NoDup(CollectFields(fields, found))
    ensures found <= CollectFields(fields, found)
    ensures forall x :: x in CollectFields(fields, found) <==> x in found || x in FieldsIds(fields)
    decreases fields, 0
  {
    if |fields| > 0 {
      var (k, v) := fields[0];
      assert v < fields[0];
      var found' := if k == "AWS" then CollectPrincipal(v, found) else CollectIds(v, found);
      if k == "AWS" {
        match v
        case Arr(items) => CollectPrincipalItemsSound(items, found);
        case _ =>
      } else {
        CollectIdsSound(v, found);
      }
      CollectFieldsSound(fields[1..], found');
      FieldsIdsCons(fields);
    }
  }

  lemma {:induction false} CollectItemsSound(items: seq<Json>, found: seq<string>)
    requires NoDup(found)
    ensures NoDup(CollectItems(items, found))
    ensures found <= CollectItems(items, found)
    ensures forall x :: x in CollectItems(items, found) <==> x in found || x in ItemsIds(items)
    decreases items, 0
  {
    if |items| > 0 {
      CollectIdsSound(items[0], found);
      CollectItemsSound(items[1..], CollectIds(items[0], found));
      ItemsIdsCons(items);
    }
  }

  /** The reference sets read front to back as well as back to front. */
  lemma {:induction false} FieldsIdsCons(fields: seq<(string, Json)>)
    requires |fields| > 0
    ensures FieldsIds(fields) ==
      (if fields[0].0 == "AWS" then PrincipalIds(fields[0].1) else AccountIds(fields[0].1)) + FieldsIds(fields[1..])
    decreases |fields|
  {
    if |fields| > 1 {
      FieldsIdsCons(fields[..|fields| - 1]);
      assert fields[..|fields| - 1][1..] == fields[1..][..|fields[1..]| - 1];
    } else {
      assert fields[..0] == [];
    }
  }

  lemma {:induction false} ItemsIdsCons(items: seq<Json>)
    requires |items| > 0
    ensures ItemsIds(items) == AccountIds(items[0]) + ItemsIds(items[1..])
    decreases |items|
  {
    if |items| > 1 {
      ItemsIdsCons(items[..|items| - 1]);
      assert items[..|items| - 1][1..] == items[1..][..|items[1..]| - 1];
    } else {
      assert items[..0] == [];
    }
  }

  /** Every ID the reference set holds is twelve ASCII digits. */
  lemma {:induction false} AccountIdsAreAccountIds(node: Json)
    ensures forall x | x in AccountIds(node) :: IsAccountId(x)
    decreases node, 1
  {
    match node
    case Obj(fields) => FieldsIdsAreAccountIds(fields);
    case Arr(items) => ItemsIdsAreAccountIds(items);
    case _ =>
  }

  lemma {:induction false} FieldsIdsAreAccountIds(fields: seq<(string, Json)>)
    ensures forall x | x in FieldsIds(fields) :: IsAccountId(x)
    decreases fields, 0
  {
    if |fields| > 0 {
      FieldsIdsAreAccountIds(fields[..|fields| - 1]);
      assert fields[|fields| - 1].1 < fields[|fields| - 1];
      AccountIdsAreAccountIds(fields[|fields| - 1].1);
    }
  }

  lemma {:induction false} ItemsIdsAreAccountIds(items: seq<Json>)
    ensures forall x | x in ItemsIds(items) :: IsAccountId(x)
    decreases items, 0
  {
    if |items| > 0 {
      ItemsIdsAreAccountIds(items[..|items| - 1]);
      AccountIdsAreAccountIds(items[|items| - 1]);
    }
  }

  /**
   * What `extract_account_ids` promises: a duplicate-free list of twelve-digit
   * IDs whose elements are exactly the reference set.
   */
  lemma AccountIdListSound(doc: Json)
    ensures NoDup(AccountIdList(doc))
    ensures forall x :: x in AccountIdList(doc) <==> x in AccountIds(doc)
    ensures forall i | 0 <= i < |AccountIdList(doc)| :: IsAccountId(AccountIdList(doc)[i])
  {
    CollectIdsSound(doc, []);
    AccountIdsAreAccountIds(doc);
  }

  /** A mapping under "AWS" is neither read nor searched: nothing below it is found. */
  lemma NestedObjectUnderAwsIgnored(inner: seq<(string, Json)>)
    ensures AccountIds(Obj([("AWS", Obj(inner))])) == {}
  {
    var fields := [("AWS", Obj(inner))];
    assert fields[..0] == [];
    assert FieldsIds(fields) == FieldsIds([]) + PrincipalIds(Obj(inner));
  }

  /** An IAM ARN `arn:aws:iam::<account>:<resource>` yields its account field. */
  lemma IamArnPrincipal(account: string, resource: string)
    requires IsAccountId(account) && ':' !in resource
    ensures Split("arn:aws:iam::" + account + ":" + resource, ':') == ["arn", "aws", "iam", "", account, resource]
    ensures PrincipalAccount("arn:aws:iam::" + account + ":" + resource) == Some(account)
  {
    var arn := "arn:aws:iam::" + account + ":" + resource;
    var parts := ["arn", "aws", "iam", "", account, resource];
    assert Join(parts[5..], ':') == resource;
    assert Join(parts[4..], ':') == account + ":" + resource;
    assert Join(parts[3..], ':') == ":" + account + ":" + resource;
    assert Join(parts[2..], ':') == "iam::" + account + ":" + resource;
    assert Join(parts[1..], ':') == "aws:iam::" + account + ":" + resource;
    assert Join(parts, ':') == arn;
    assert forall i | 0 <= i < 4 :: ':' !in parts[i];
    assert ':' !in account by {
      assert forall i | 0 <= i < |account| :: IsDigit(account[i]);
    }
    SplitJoin(parts, ':');
    assert "arn:aws" <= arn;
  }

  /**
   * The walker as a method: it grows `found` while descending, checking the
   * value of every "AWS" key and recursing into every other value and every
   * list element.
   */
  method Walk(node: Json, found: seq<string>) returns (out: seq<string>)
    ensures out == CollectIds(node, found)
    decreases node, 1
  {
    match node {
      case Obj(fields) =>
        out := found;
        var i := 0;
        while i < |fields|
          invariant 0 <= i <= |fields|
          invariant CollectFields(fields[i..], out) == CollectFields(fields, found)
        {
          var (k, v) := fields[i];
          assert fields[i..][0] == fields[i] && fields[i..][1..] == fields[i + 1..];
          if k == "AWS" {
            out := WalkPrincipal(v, out);
          } else {
            assert v < fields[i];
            out := Walk(v, out);
          }
          i := i + 1;
        }
      case Arr(items) =>
        out := found;
        var i := 0;
        while i < |items|
          invariant 0 <= i <= |items|
          invariant CollectItems(items[i..], out) == CollectItems(items, found)
        {
          assert items[i..][0] == items[i] && items[i..][1..] == items[i + 1..];
          out := Walk(items[i], out);
          i := i + 1;
        }
      case _ =>
        out := found;
    }
  }

  /** The check of one value under an "AWS" key: a string, or each string of a list. */
  method WalkPrincipal(v: Json, found: seq<string>) returns (out: seq<string>)
    ensures out == CollectPrincipal(v, found)
  {
    out := found;
    match v {
      case Str(s) =>
        var id := PrincipalAccount(s);
        if id.Some? {
          out := Add(out, id.value);
        }
      case Arr(items) =>
        var i := 0;
        while i < |items|
          invariant 0 <= i <= |items|
          invariant CollectPrincipalItems(items[i..], out) == CollectPrincipalItems(items, found)
        {
          assert items[i..][0] == items[i] && items[i..][1..] == items[i + 1..];
          if items[i].Str? {
            var id := PrincipalAccount(items[i].s);
            if id.Some? {
              out := Add(out, id.value);
            }
          }
          i := i + 1;
        }
      case _ =>
    }
  }

  /** `extract_account_ids`: the distinct account IDs the document names as principals. */
  method ExtractAccountIds(doc: Json) returns (ids: seq<string>)
    ensures ids == AccountIdList(doc)
    ensures NoDup(ids)
    ensures forall x :: x in ids <==> x in AccountIds(doc)
    ensures forall i | 0 <= i < |ids| :: IsAccountId(ids[i])
  {
    ids := Walk(doc, []);
    AccountIdListSound(doc);
  }

  // ---------------------------------------------------------------------
  // Trust-policy audit
  // ---------------------------------------------------------------------

  /**
   * The statements of a policy as `has_external_id` reads them: none when
   * `Statement` is missing or falsy, the list itself when it is a list, and a
   * one-element list otherwise.
   */
  function Statements(policy: Json): seq<Json> {
    match Get(policy, "Statement")
    case None => []
    case Some(st) => if !Truthy(st) then [] else if st.Arr? then st.items else [st]
  }

  /** A Condition operator block that is a mapping holding the key "sts:ExternalId". */
  predicate IsExternalIdBlock(vals: Json) {
    vals.Obj? && HasKey(vals, "sts:ExternalId")
  }

  /** A statement with Effect "Allow" whose Condition has an ExternalId operator block. */
  predicate AllowsWithExternalId(stmt: Json) {
    && Get(stmt, "Effect") == Some(Str("Allow"))
    && match Get(stmt, "Condition")
       case Some(Obj(ops)) => exists i | 0 <= i < |ops| :: IsExternalIdBlock(ops[i].1)
       case _ => false
  }

  /** The loop over one Condition's operator blocks, returning at the first match. */
  function ConditionScan(ops: seq<(string, Json)>): (b: bool)
    ensures b <==> exists i | 0 <= i < |ops| :: IsExternalIdBlock(ops[i].1)
  {
    if |ops| == 0 then false
    else if IsExternalIdBlock(ops[0].1) then true
    else
      var rest := ConditionScan(ops[1..]);
      assert forall i | 1 <= i < |ops| :: ops[i] == ops[1..][i - 1];
      rest
  }

  /** The loop over the statements, skipping non-Allow ones, returning at the first match. */
  function StatementScan(stmts: seq<Json>): (b: bool)
    ensures b <==> exists i | 0 <= i < |stmts| :: AllowsWithExternalId(stmts[i])
  {
    if |stmts| == 0 then false
    else
      var s := stmts[0];
      var here := Get(s, "Effect") == Some(Str("Allow")) &&
                  match Get(s, "Condition")
                  case Some(Obj(ops)) => ConditionScan(ops)
                  case _ => false;
      if here then true
      else
        var rest := StatementScan(stmts[1..]);
        assert forall i | 1 <= i < |stmts| :: stmts[i] == stmts[1..][i - 1];
        rest
  }

  /**
   * `has_external_id`: true exactly when some Allow statement carries an
   * sts:ExternalId condition under some operator.
   */
  function HasExternalId(policy: Json): (b: bool)
    ensures b <==> exists i | 0 <= i < |Statements(policy)| :: AllowsWithExternalId(Statements(policy)[i])
  {
    StatementScan(Statements(policy))
  }

  /** With no Statement, or an empty one, there is no protection. */
  lemma NoStatementsNoExternalId(policy: Json)
    requires Get(policy, "Statement").None? || Get(policy, "Statement") == Some(Arr([]))
    ensures !HasExternalId(policy)
  {
  }

  /** A single statement object reads the same as the list holding just it. */
  lemma SingleStatementAsList(stmt: Json)
    requires Truthy(stmt) && !stmt.Arr?
    ensures HasExternalId(Obj([("Statement", stmt)])) == HasExternalId(Obj([("Statement", Arr([stmt]))]))
  {
    assert Statements(Obj([("Statement", stmt)])) == [stmt];
    assert Statements(Obj([("Statement", Arr([stmt]))])) == [stmt];
  }

  /** A statement whose Effect is not "Allow" never changes the verdict. */
  lemma NonAllowIgnored(stmts: seq<Json>, stmt: Json)
    requires Get(stmt, "Effect") != Some(Str("Allow"))
    ensures HasExternalId(Obj([("Statement", Arr(stmts + [stmt]))])) == HasExternalId(Obj([("Statement", Arr(stmts))]))
  {
    var xs := stmts + [stmt];
    assert Statements(Obj([("Statement", Arr(xs))])) == xs;
    if |stmts| > 0 {
      assert Statements(Obj([("Statement", Arr(stmts))])) == stmts;
    } else {
      assert Statements(Obj([("Statement", Arr(stmts))])) == [];
    }
    assert forall i | 0 <= i < |stmts| :: xs[i] == stmts[i];
    assert !AllowsWithExternalId(xs[|stmts|]);
  }

  // ---------------------------------------------------------------------
  // Reference tables
  // ---------------------------------------------------------------------

  /** One parsed entry of a reference file: `name`, `type`, `source`, `description`, `accounts`. */
  datatype AccountsEntry = AccountsEntry(
    name: Option<string>,
    kind: Option<string>,
    source: Option<Json>,
    description: Option<string>,
    accounts: seq<string>)

  datatype KnownAccount = KnownAccount(name: string, kind: string, source: Json)
  datatype TrustedAccount = TrustedAccount(name: string, kind: string, description: string)

  /** The metadata a known-vendor entry gives each of its accounts. */
  function KnownInfo(e: AccountsEntry): KnownAccount {
    KnownAccount(e.name.GetOr("Unknown"), e.kind.GetOr("third-party"), e.source.GetOr(Arr([])))
  }

  /** The metadata a trusted entry gives each of its accounts. */
  function TrustedInfo(e: AccountsEntry): TrustedAccount {
    TrustedAccount(e.name.GetOr("Internal"), "trusted", e.description.GetOr(""))
  }

  /** The index of the last entry listing `acct`. */
  function LastEntryWith(entries: seq<AccountsEntry>, acct: string): (r: Option<nat>)
    ensures r.None? <==> forall i | 0 <= i < |entries| :: acct !in entries[i].accounts
    ensures r.Some? ==> r.value < |entries| && acct in entries[r.value].accounts
    ensures r.Some? ==> forall j | r.value < j < |entries| :: acct !in entries[j].accounts
  {
    if |entries| == 0 then None
    else if acct in entries[|entries| - 1].accounts then Some(|entries| - 1)
    else LastEntryWith(entries[..|entries| - 1], acct)
  }

  /** Every account some entry lists. */
  function ListedAccounts(entries: seq<AccountsEntry>): (r: set<string>)
    ensures forall a :: a in r <==> exists i | 0 <= i < |entries| :: a in entries[i].accounts
  {
    if |entries| == 0 then {}
    else
      var pre := entries[..|entries| - 1];
      assert forall i | 0 <= i < |pre| :: pre[i] == entries[i];
      ListedAccounts(pre) + Elems(entries[|entries| - 1].accounts)
  }

  /** `mapping[a] = v` for each account of `accts`, in order. */
  function Overwrite<V>(m: map<string, V>, accts: seq<string>, v: V): (r: map<string, V>)
    ensures forall a :: a in r <==> a in m || a in accts
    ensures forall a | a in r :: r[a] == if a in accts then v else m[a]
  {
    if |accts| == 0 then m else Overwrite(m, accts[..|accts| - 1], v)[accts[|accts| - 1] := v]
  }

  /** The table the builders produce: the entries' accounts written in order, later entries overwriting. */
  function Table<V>(entries: seq<AccountsEntry>, info: AccountsEntry -> V): map<string, V> {
    if |entries| == 0 then map[]
    else
      var e := entries[|entries| - 1];
      Overwrite(Table(entries[..|entries| - 1], info), e.accounts, info(e))
  }

  /** The table holds every listed account, with the metadata of the last entry listing it. */
  lemma {:induction false} TableLast<V>(entries: seq<AccountsEntry>, info: AccountsEntry -> V)
    ensures Table(entries, info).Keys == ListedAccounts(entries)
    ensures forall a | a in Table(entries, info) :: Table(entries, info)[a] == info(entries[LastEntryWith(entries, a).value])
  {
    if |entries| > 0 {
      var i := |entries| - 1;
      var pre := entries[..i];
      assert entries[..i + 1] == entries;
      TableLast(pre, info);
      ListedAccountsSnoc(entries, i);
      forall a | a in Table(entries, info)
        ensures Table(entries, info)[a] == info(entries[LastEntryWith(entries, a).value])
      {
        LastEntryWithSnoc(entries, i, a);
        if a !in entries[i].accounts {
          assert entries[LastEntryWith(pre, a).value] == pre[LastEntryWith(pre, a).value];
        }
      }
    }
  }

  /** The nested loops of both table builders: every account of every entry, later entries overwriting. */
  method BuildTable<V>(entries: seq<AccountsEntry>, info: AccountsEntry -> V) returns (mapping: map<string, V>)
    ensures mapping == Table(entries, info)
  {
    mapping := map[];
    for i := 0 to |entries|
      invariant mapping == Table(entries[..i], info)
    {
      var e := entries[i];
      ghost var before := mapping;
      for j := 0 to |e.accounts|
        invariant mapping == Overwrite(before, e.accounts[..j], info(e))
      {
        assert e.accounts[..j + 1][..j] == e.accounts[..j];
        mapping := mapping[e.accounts[j] := info(e)];
      }
      assert e.accounts[..|e.accounts|] == e.accounts;
      assert entries[..i + 1][..i] == entries[..i];
    }
    assert entries[..|entries|] == entries;
  }

  /** Appending an entry: the accounts it lists now last appear there; the others keep their last entry. */
  lemma LastEntryWithSnoc(entries: seq<AccountsEntry>, i: nat, a: string)
    requires i < |entries|
    ensures a in entries[i].accounts ==> LastEntryWith(entries[..i + 1], a) == Some(i)
    ensures a !in entries[i].accounts ==> LastEntryWith(entries[..i + 1], a) == LastEntryWith(entries[..i], a)
  {
    assert entries[..i + 1][..i] == entries[..i];
  }

  lemma ListedAccountsSnoc(entries: seq<AccountsEntry>, i: nat)
    requires i < |entries|
    ensures ListedAccounts(entries[..i + 1]) == ListedAccounts(entries[..i]) + Elems(entries[i].accounts)
  {
    assert entries[..i + 1][..i] == entries[..i];
  }

  /**
   * `fetch_reference_data` on the parsed catalogue (None: the fetch or parse
   * failed): every listed account maps to its last entry's name (default
   * 'Unknown'), type (default 'third-party') and source.
   */
  method FetchReferenceData(vendors: Option<seq<AccountsEntry>>) returns (mapping: map<string, KnownAccount>)
    ensures mapping == ReferenceTable(vendors, KnownInfo)
    ensures vendors.None? ==> mapping == map[]
    ensures vendors.Some? ==> mapping.Keys == ListedAccounts(vendors.value)
    ensures vendors.Some? ==> forall a | a in mapping ::
      var e := vendors.value[LastEntryWith(vendors.value, a).value];
      mapping[a] == KnownAccount(e.name.GetOr("Unknown"), e.kind.GetOr("third-party"), e.source.GetOr(Arr([])))
  {
    if vendors.None? {
      mapping := map[];
    } else {
      mapping := BuildTable(vendors.value, KnownInfo);
      TableLast(vendors.value, KnownInfo);
    }
  }

  /**
   * `fetch_trusted_accounts` on the parsed file (None: the file is absent or
   * unreadable): every listed account maps to its last entry's name (default
   * 'Internal'), type 'trusted' and description.
   */
  method FetchTrustedAccounts(entries: Option<seq<AccountsEntry>>) returns (mapping: map<string, TrustedAccount>)
    ensures mapping == ReferenceTable(entries, TrustedInfo)
    ensures entries.None? ==> mapping == map[]
    ensures entries.Some? ==> mapping.Keys == ListedAccounts(entries.value)
    ensures entries.Some? ==> forall a | a in mapping ::
      var e := entries.value[LastEntryWith(entries.value, a).value];
      mapping[a] == TrustedAccount(e.name.GetOr("Internal"), "trusted", e.description.GetOr(""))
  {
    if entries.None? {
      mapping := map[];
    } else {
      mapping := BuildTable(entries.value, TrustedInfo);
      TableLast(entries.value, TrustedInfo);
    }
  }

  // ---------------------------------------------------------------------
  // Categorisation of roles and buckets
  // ---------------------------------------------------------------------

  /** A result map `name -> list of resource names`, grown by `setdefault(key, []).append(name)`. */
  type Listing = map<string, seq<string>>

  /** The five maps of `check_iam_roles`; `check_s3_buckets` fills only the first three. */
  datatype Bucket = TrustedEntities | KnownVendors | UnknownAccounts | VulnerableRoles | CrossAccountRoles

  /** One `res[bucket].setdefault(key, []).append(resource)`. */
  datatype Filing = Filing(bucket: Bucket, key: string, resource: string)

  datatype Findings = Findings(
    trustedEntities: Listing,
    knownVendors: Listing,
    unknownAccounts: Listing,
    vulnerableRoles: Listing,
    crossAccountRoles: Listing)
  {
    function Get(b: Bucket): Listing {
      match b
      case TrustedEntities => trustedEntities
      case KnownVendors => knownVendors
      case UnknownAccounts => unknownAccounts
      case VulnerableRoles => vulnerableRoles
      case CrossAccountRoles => crossAccountRoles
    }

    /** The findings after one filing: only the filed key of the filed map changes. */
    function File(f: Filing): (r: Findings)
      ensures forall b | b != f.bucket :: r.Get(b) == Get(b)
      ensures r.Get(f.bucket).Keys == Get(f.bucket).Keys + {f.key}
      ensures r.Get(f.bucket)[f.key] == (if f.key in Get(f.bucket) then Get(f.bucket)[f.key] else []) + [f.resource]
      ensures forall k | k in Get(f.bucket) && k != f.key :: r.Get(f.bucket)[k] == Get(f.bucket)[k]
    {
      var m := Get(f.bucket);
      var m' := m[f.key := (if f.key in m then m[f.key] else []) + [f.resource]];
      match f.bucket
      case TrustedEntities => this.(trustedEntities := m')
      case KnownVendors => this.(knownVendors := m')
      case UnknownAccounts => this.(unknownAccounts := m')
      case VulnerableRoles => this.(vulnerableRoles := m')
      case CrossAccountRoles => this.(crossAccountRoles := m')
    }
  }

  const NoFindings := Findings(map[], map[], map[], map[], map[])

  /** The findings produced by a sequence of filings, in order. */
  function Replay(fs: seq<Filing>): Findings {
    if |fs| == 0 then NoFindings else Replay(fs[..|fs| - 1]).File(fs[|fs| - 1])
  }

  lemma ReplaySnoc(fs: seq<Filing>, f: Filing)
    ensures Replay(fs + [f]) == Replay(fs).File(f)
  {
    assert (fs + [f])[..|fs|] == fs;
  }

  /** Independent reading of a map: the resources filed under `key` of `b`, in filing order. */
  function Filed(fs: seq<Filing>, b: Bucket, key: string): (r: seq<string>)
    ensures forall x :: x in r <==> Filing(b, key, x) in fs
  {
    if |fs| == 0 then []
    else
      var f := fs[|fs| - 1];
      var pre := fs[..|fs| - 1];
      assert fs == pre + [f];
      Filed(pre, b, key) + (if f.bucket == b && f.key == key then [f.resource] else [])
  }

  /** Number of filings into `b`. */
  function Count(fs: seq<Filing>, b: Bucket): nat {
    if |fs| == 0 then 0 else Count(fs[..|fs| - 1], b) + (if fs[|fs| - 1].bucket == b then 1 else 0)
  }

  /**
   * The setdefault/append fold agrees with the filter: a key is present
   * exactly when something was filed under it, and its list is what was
   * filed under it, in order.
   */
  lemma {:induction false} ReplayGet(fs: seq<Filing>, b: Bucket, key: string)
    ensures key in Replay(fs).Get(b) <==> Filed(fs, b, key) != []
    ensures key in Replay(fs).Get(b) ==> Replay(fs).Get(b)[key] == Filed(fs, b, key)
    decreases |fs|
  {
    if |fs| > 0 {
      ReplayGet(fs[..|fs| - 1], b, key);
    }
  }

  /** Membership in a result map, read off the filings. */
  lemma ReplayMember(fs: seq<Filing>, b: Bucket, key: string, x: string)
    ensures (key in Replay(fs).Get(b) && x in Replay(fs).Get(b)[key]) <==> Filing(b, key, x) in fs
  {
    ReplayGet(fs, b, key);
  }

  /** The sum of the lengths of the lists a map holds under the keys `ks`. */
  ghost function SumOver(m: Listing, ks: set<string>): nat
    requires ks <= m.Keys
  {
    if ks == {} then 0
    else
      var k :| k in ks;
      |m[k]| + SumOver(m, ks - {k})
  }

  /** `sum(len(v) for v in m.values())`. */
  ghost function SumLengths(m: Listing): nat {
    SumOver(m, m.Keys)
  }

  /** SumOver does not depend on which key it takes first. */
  lemma {:induction false} SumOverAt(m: Listing, ks: set<string>, k: string)
    requires ks <= m.Keys && k in ks
    ensures SumOver(m, ks) == |m[k]| + SumOver(m, ks - {k})
    decreases ks
  {
    var k' :| k' in ks && SumOver(m, ks) == |m[k']| + SumOver(m, ks - {k'});
    if k' != k {
      calc {
        SumOver(m, ks);
        |m[k']| + SumOver(m, ks - {k'});
        { SumOverAt(m, ks - {k'}, k); }
        |m[k']| + |m[k]| + SumOver(m, ks - {k'} - {k});
        { assert ks - {k'} - {k} == ks - {k} - {k'}; }
        |m[k]| + |m[k']| + SumOver(m, ks - {k} - {k'});
        { SumOverAt(m, ks - {k}, k'); }
        |m[k]| + SumOver(m, ks - {k});
      }
    }
  }

  /** SumOver reads only the lists under `ks`. */
  lemma {:induction false} SumOverSame(m1: Listing, m2: Listing, ks: set<string>)
    requires ks <= m1.Keys && ks <= m2.Keys
    requires forall k | k in ks :: m1[k] == m2[k]
    ensures SumOver(m1, ks) == SumOver(m2, ks)
    decreases ks
  {
    if ks != {} {
      var k :| k in ks;
      SumOverAt(m1, ks, k);
      SumOverAt(m2, ks, k);
      SumOverSame(m1, m2, ks - {k});
    }
  }

  /** One more filing into a map adds exactly one to its total length. */
  lemma SumLengthsFile(m: Listing, key: string, x: string)
    ensures SumLengths(m[key := (if key in m then m[key] else []) + [x]]) == SumLengths(m) + 1
  {
    var m' := m[key := (if key in m then m[key] else []) + [x]];
    SumOverAt(m', m'.Keys, key);
    if key in m {
      assert m'.Keys == m.Keys;
      SumOverAt(m, m.Keys, key);
      SumOverSame(m, m', m.Keys - {key});
    } else {
      assert m'.Keys - {key} == m.Keys;
      SumOverSame(m, m', m.Keys);
    }
  }

  /** The total length of a result map is the number of filings into it. */
  lemma {:induction false} SumLengthsReplay(fs: seq<Filing>, b: Bucket)
    ensures SumLengths(Replay(fs).Get(b)) == Count(fs, b)
    decreases |fs|
  {
    if |fs| == 0 {
      assert Replay(fs).Get(b) == map[];
    } else {
      var pre, f := fs[..|fs| - 1], fs[|fs| - 1];
      SumLengthsReplay(pre, b);
      if f.bucket == b {
        SumLengthsFile(Replay(pre).Get(b), f.key, f.resource);
        assert Replay(fs).Get(b) == Replay(pre).Get(b)[f.key := (if f.key in Replay(pre).Get(b) then Replay(pre).Get(b)[f.key] else []) + [f.resource]];
      }
    }
  }

  /** What the analysis knows besides the resources: the caller's account, the two tables, the alias map. */
  datatype Context = Context(
    caller: string,
    known: map<string, KnownAccount>,
    trusted: map<string, TrustedAccount>,
    aliases: map<string, string>)

  /**
   * The category an account is filed under and its key: trusted first, then
   * known vendor, else unknown as "{id} ({alias or id})".
   */
  function Categorise(acct: string, ctx: Context): (r: (Bucket, string))
    ensures r.0 == TrustedEntities <==> acct in ctx.trusted
    ensures r.0 == KnownVendors <==> acct !in ctx.trusted && acct in ctx.known
    ensures r.0 == UnknownAccounts <==> acct !in ctx.trusted && acct !in ctx.known
    ensures r.0 == TrustedEntities ==> r.1 == ctx.trusted[acct].name
    ensures r.0 == KnownVendors ==> r.1 == ctx.known[acct].name
    ensures r.0 == UnknownAccounts ==> r.1 == acct + " (" + (if acct in ctx.aliases then ctx.aliases[acct] else acct) + ")"
  {
    if acct in ctx.trusted then (TrustedEntities, ctx.trusted[acct].name)
    else if acct in ctx.known then (KnownVendors, ctx.known[acct].name)
    else (UnknownAccounts, acct + " (" + (if acct in ctx.aliases then ctx.aliases[acct] else acct) + ")")
  }

  /** The cross-account key of an account: the known name first, then the trusted name, then the alias or "Unknown". */
  function CrossDisplay(acct: string, ctx: Context): (r: string)
    ensures acct in ctx.known ==> r == acct + " (" + ctx.known[acct].name + ")"
    ensures acct !in ctx.known && acct in ctx.trusted ==> r == acct + " (" + ctx.trusted[acct].name + ")"
    ensures acct !in ctx.known && acct !in ctx.trusted ==>
      r == acct + " (" + (if acct in ctx.aliases then ctx.aliases[acct] else "Unknown") + ")"
  {
    var name :=
      if acct in ctx.known then ctx.known[acct].name
      else if acct in ctx.trusted then ctx.trusted[acct].name
      else if acct in ctx.aliases then ctx.aliases[acct]
      else "Unknown";
    acct + " (" + name + ")"
  }

  /** Different account IDs never share a cross-account key, since each key starts with its account ID. */
  lemma CrossDisplayDistinct(a1: string, a2: string, ctx: Context)
    requires IsAccountId(a1) && IsAccountId(a2) && a1 != a2
    ensures CrossDisplay(a1, ctx) != CrossDisplay(a2, ctx)
  {
    assert CrossDisplay(a1, ctx)[..|a1|] == a1;
    assert CrossDisplay(a2, ctx)[..|a2|] == a2;
  }

  /** The cross-account filing of one extracted account: none for the caller's own account. */
  function CrossFiling(name: string, acct: string, ctx: Context): seq<Filing> {
    if acct != ctx.caller then [Filing(CrossAccountRoles, CrossDisplay(acct, ctx), name)] else []
  }

  /** The cross-account filings of one role, account by account. */
  function CrossFilings(name: string, ids: seq<string>, ctx: Context): seq<Filing> {
    if |ids| == 0 then [] else CrossFilings(name, ids[..|ids| - 1], ctx) + CrossFiling(name, ids[|ids| - 1], ctx)
  }

  /**
   * The category filings of one account: its category, then, when `audit`
   * holds (a role lacking an ExternalId condition) and the account is not
   * trusted, the same key in vulnerable_roles.
   */
  function AccountFilings(name: string, acct: string, audit: bool, ctx: Context): seq<Filing> {
    var c := Categorise(acct, ctx);
    [Filing(c.0, c.1, name)] + (if audit && c.0 != TrustedEntities then [Filing(VulnerableRoles, c.1, name)] else [])
  }

  function CategoryFilings(name: string, ids: seq<string>, audit: bool, ctx: Context): seq<Filing> {
    if |ids| == 0 then []
    else CategoryFilings(name, ids[..|ids| - 1], audit, ctx) + AccountFilings(name, ids[|ids| - 1], audit, ctx)
  }

  /** An IAM role as listed: its name and, when present, its trust policy. */
  datatype Role = Role(name: string, trustPolicy: Option<Json>)

  function PolicyOf(r: Role): Json {
    r.trustPolicy.GetOr(Obj([]))
  }

  function RoleFilings(r: Role, ctx: Context): seq<Filing> {
    var ids := AccountIdList(PolicyOf(r));
    CrossFilings(r.name, ids, ctx) + CategoryFilings(r.name, ids, !HasExternalId(PolicyOf(r)), ctx)
  }

  /** The filings of each element of `xs`, one after the other. */
  function ConcatMap<A>(xs: seq<A>, g: A -> seq<Filing>): seq<Filing> {
    if |xs| == 0 then [] else ConcatMap(xs[..|xs| - 1], g) + g(xs[|xs| - 1])
  }

  lemma {:induction false} ConcatMapMember<A>(xs: seq<A>, g: A -> seq<Filing>, f: Filing)
    ensures f in ConcatMap(xs, g) <==> exists i | 0 <= i < |xs| :: f in g(xs[i])
    decreases |xs|
  {
    if |xs| > 0 {
      var pre := xs[..|xs| - 1];
      ConcatMapMember(pre, g, f);
      if exists i | 0 <= i < |xs| :: f in g(xs[i]) {
        var i :| 0 <= i < |xs| && f in g(xs[i]);
        if i < |pre| {
          assert pre[i] == xs[i];
        }
      }
      if f in ConcatMap(pre, g) {
        var i :| 0 <= i < |pre| && f in g(pre[i]);
        assert pre[i] == xs[i];
      }
    }
  }

  /** The filings of `check_iam_roles`: role after role. */
  function IamFilings(roles: seq<Role>, ctx: Context): seq<Filing> {
    ConcatMap(roles, (r: Role) => RoleFilings(r, ctx))
  }

  /**
   * The bucket policy as fetched: none (the request failed, so the bucket is
   * skipped), text that does not parse (the whole loop ends there), or a
   * parsed document.
   */
  datatype BucketPolicy = NoPolicy | Unparsable | Parsed(doc: Json)

  datatype S3Bucket = S3Bucket(name: string, policy: BucketPolicy)

  function S3Filings(buckets: seq<S3Bucket>, ctx: Context): seq<Filing>
    decreases |buckets|
  {
    if |buckets| == 0 then []
    else
      match buckets[0].policy
      case NoPolicy => S3Filings(buckets[1..], ctx)
      case Unparsable => []
      case Parsed(doc) =>
        CategoryFilings(buckets[0].name, AccountIdList(doc), false, ctx) + S3Filings(buckets[1..], ctx)
  }

  /** One pass of the cross-account loop: file the role under the account's display name unless it is the caller's. */
  method FileCross(res: Findings, ghost done: seq<Filing>, name: string, acct: string, ctx: Context) returns (res': Findings)
    requires res == Replay(done)
    ensures res' == Replay(done + CrossFiling(name, acct, ctx))
  {
    res' := res;
    if acct != ctx.caller {
      var acctDisplay;
      if acct in ctx.known {
        acctDisplay := acct + " (" + ctx.known[acct].name + ")";
      } else if acct in ctx.trusted {
        acctDisplay := acct + " (" + ctx.trusted[acct].name + ")";
      } else {
        acctDisplay := acct + " (" + (if acct in ctx.aliases then ctx.aliases[acct] else "Unknown") + ")";
      }
      ReplaySnoc(done, Filing(CrossAccountRoles, acctDisplay, name));
      res' := res.File(Filing(CrossAccountRoles, acctDisplay, name));
    } else {
      assert done + CrossFiling(name, acct, ctx) == done;
    }
  }

  /** One pass of the categorisation loop: trusted, known (and vulnerable) or unknown (and vulnerable). */
  method FileAccount(res: Findings, ghost done: seq<Filing>, name: string, acct: string, audit: bool, ctx: Context) returns (res': Findings)
    requires res == Replay(done)
    ensures res' == Replay(done + AccountFilings(name, acct, audit, ctx))
  {
    if acct in ctx.trusted {
      ReplaySnoc(done, Filing(TrustedEntities, ctx.trusted[acct].name, name));
      res' := res.File(Filing(TrustedEntities, ctx.trusted[acct].name, name));
    } else {
      var key;
      var bucket;
      if acct in ctx.known {
        key, bucket := ctx.known[acct].name, KnownVendors;
      } else {
        key, bucket := acct + " (" + (if acct in ctx.aliases then ctx.aliases[acct] else acct) + ")", UnknownAccounts;
      }
      assert Categorise(acct, ctx) == (bucket, key);
      ReplaySnoc(done, Filing(bucket, key, name));
      res' := res.File(Filing(bucket, key, name));
      if audit {
        assert AccountFilings(name, acct, audit, ctx) == [Filing(bucket, key, name), Filing(VulnerableRoles, key, name)];
        ReplaySnoc(done + [Filing(bucket, key, name)], Filing(VulnerableRoles, key, name));
        res' := res'.File(Filing(VulnerableRoles, key, name));
        assert done + [Filing(bucket, key, name)] + [Filing(VulnerableRoles, key, name)] == done + AccountFilings(name, acct, audit, ctx);
      }
    }
  }

  /** The cross-account loop of one role, over its extracted accounts. */
  method FileCrossAccounts(res: Findings, ghost done: seq<Filing>, name: string, acctIds: seq<string>, ctx: Context) returns (res': Findings)
    requires res == Replay(done)
    ensures res' == Replay(done + CrossFilings(name, acctIds, ctx))
  {
    res' := res;
    assert done + CrossFilings(name, acctIds[..0], ctx) == done;
    for j := 0 to |acctIds|
      invariant res' == Replay(done + CrossFilings(name, acctIds[..j], ctx))
    {
      assert acctIds[..j + 1][..j] == acctIds[..j];
      AppendAssoc(done, CrossFilings(name, acctIds[..j], ctx), CrossFiling(name, acctIds[j], ctx));
      res' := FileCross(res', done + CrossFilings(name, acctIds[..j], ctx), name, acctIds[j], ctx);
    }
    assert acctIds[..|acctIds|] == acctIds;
  }

  /** The categorisation loop of one role or bucket, over its extracted accounts. */
  method FileAccounts(res: Findings, ghost done: seq<Filing>, name: string, acctIds: seq<string>, audit: bool, ctx: Context) returns (res': Findings)
    requires res == Replay(done)
    ensures res' == Replay(done + CategoryFilings(name, acctIds, audit, ctx))
  {
    res' := res;
    assert done + CategoryFilings(name, acctIds[..0], audit, ctx) == done;
    for j := 0 to |acctIds|
      invariant res' == Replay(done + CategoryFilings(name, acctIds[..j], audit, ctx))
    {
      assert acctIds[..j + 1][..j] == acctIds[..j];
      AppendAssoc(done, CategoryFilings(name, acctIds[..j], audit, ctx), AccountFilings(name, acctIds[j], audit, ctx));
      res' := FileAccount(res', done + CategoryFilings(name, acctIds[..j], audit, ctx), name, acctIds[j], audit, ctx);
    }
    assert acctIds[..|acctIds|] == acctIds;
  }

  /** A position of a member of a sequence. */
  lemma Position<T>(s: seq<T>, x: T) returns (i: nat)
    requires x in s
    ensures i < |s| && s[i] == x
  {
    i :| i < |s| && s[i] == x;
  }

  lemma AppendAssoc<T>(a: seq<T>, b: seq<T>, c: seq<T>)
    ensures a + (b + c) == a + b + c
  {}

  lemma RoleFilingsParts(role: Role, ctx: Context, acctIds: seq<string>, audit: bool)
    requires acctIds == AccountIdList(PolicyOf(role)) && audit == !HasExternalId(PolicyOf(role))
    ensures RoleFilings(role, ctx) == CrossFilings(role.name, acctIds, ctx) + CategoryFilings(role.name, acctIds, audit, ctx)
  {}

  /** The body of `check_iam_roles` for one role: the cross-account loop, then the categorisation loop. */
  method CheckRole(res: Findings, ghost done: seq<Filing>, role: Role, ctx: Context) returns (res': Findings)
    requires res == Replay(done)
    ensures res' == Replay(done + RoleFilings(role, ctx))
  {
    var policy := PolicyOf(role);
    var acctIds := ExtractAccountIds(policy);
    res' := FileCrossAccounts(res, done, role.name, acctIds, ctx);
    var audit := !HasExternalId(policy);
    ghost var crossed := CrossFilings(role.name, acctIds, ctx);
    ghost var filed := CategoryFilings(role.name, acctIds, audit, ctx);
    res' := FileAccounts(res', done + crossed, role.name, acctIds, audit, ctx);
    RoleFilingsParts(role, ctx, acctIds, audit);
    AppendAssoc(done, crossed, filed);
  }

  /** `check_iam_roles` over the listed roles. */
  method CheckIamRoles(roles: seq<Role>, ctx: Context) returns (res: Findings)
    ensures res == Replay(IamFilings(roles, ctx))
  {
    res := NoFindings;
    for i := 0 to |roles|
      invariant res == Replay(IamFilings(roles[..i], ctx))
    {
      assert roles[..i + 1][..i] == roles[..i];
      res := CheckRole(res, IamFilings(roles[..i], ctx), roles[i], ctx);
    }
    assert roles[..|roles|] == roles;
  }

  /**
   * `check_s3_buckets` over the listed buckets: the same categorisation, with
   * no audit and no cross-account map; a bucket without a policy is skipped,
   * a policy that does not parse ends the scan with what was found so far.
   */
  method CheckS3Buckets(buckets: seq<S3Bucket>, ctx: Context) returns (res: Findings)
    ensures res == Replay(S3Filings(buckets, ctx))
  {
    res := NoFindings;
    ghost var done: seq<Filing> := [];
    var i := 0;
    while i < |buckets|
      invariant 0 <= i <= |buckets|
      invariant res == Replay(done)
      invariant done + S3Filings(buckets[i..], ctx) == S3Filings(buckets, ctx)
    {
      var name := buckets[i].name;
      S3FilingsStep(buckets, i, ctx);
      match buckets[i].policy {
        case NoPolicy =>
        case Unparsable =>
          assert done + [] == done;
          return;
        case Parsed(doc) =>
          var acctIds := ExtractAccountIds(doc);
          res := FileAccounts(res, done, name, acctIds, false, ctx);
          AppendAssoc(done, CategoryFilings(name, acctIds, false, ctx), S3Filings(buckets[i + 1..], ctx));
          done := done + CategoryFilings(name, acctIds, false, ctx);
      }
      i := i + 1;
    }
    assert buckets[i..] == [] && done + [] == done;
  }

  lemma S3FilingsStep(buckets: seq<S3Bucket>, i: nat, ctx: Context)
    requires i < |buckets|
    ensures buckets[i].policy.NoPolicy? ==> S3Filings(buckets[i..], ctx) == S3Filings(buckets[i + 1..], ctx)
    ensures buckets[i].policy.Unparsable? ==> S3Filings(buckets[i..], ctx) == []
    ensures buckets[i].policy.Parsed? ==>
      S3Filings(buckets[i..], ctx) == CategoryFilings(buckets[i].name, AccountIdList(buckets[i].policy.doc), false, ctx) + S3Filings(buckets[i + 1..], ctx)
  {
    assert buckets[i..][0] == buckets[i] && buckets[i..][1..] == buckets[i + 1..];
  }

  // ---------------------------------------------------------------------
  // What the filings mean
  // ---------------------------------------------------------------------

  lemma {:induction false} CountAppend(a: seq<Filing>, b: seq<Filing>, bucket: Bucket)
    ensures Count(a + b, bucket) == Count(a, bucket) + Count(b, bucket)
    decreases |b|
  {
    if |b| > 0 {
      assert (a + b)[..|a + b| - 1] == a + b[..|b| - 1];
      CountAppend(a, b[..|b| - 1], bucket);
    } else {
      assert a + b == a;
    }
  }

  /** A result map that nothing was filed into stays empty. */
  lemma {:induction false} ReplayUntouched(fs: seq<Filing>, b: Bucket)
    requires forall i | 0 <= i < |fs| :: fs[i].bucket != b
    ensures Replay(fs).Get(b) == map[]
    decreases |fs|
  {
    if |fs| > 0 {
      ReplayUntouched(fs[..|fs| - 1], b);
    }
  }

  /** The filings of one account's category, read as a membership test. */
  lemma AccountFilingsMember(name: string, acct: string, audit: bool, ctx: Context, f: Filing)
    ensures f in AccountFilings(name, acct, audit, ctx) <==>
      f == Filing(Categorise(acct, ctx).0, Categorise(acct, ctx).1, name) ||
      (audit && acct !in ctx.trusted && f == Filing(VulnerableRoles, Categorise(acct, ctx).1, name))
  {}

  lemma {:induction false} CategoryFilingsMember(name: string, ids: seq<string>, audit: bool, ctx: Context, f: Filing)
    ensures f in CategoryFilings(name, ids, audit, ctx) <==> exists i | 0 <= i < |ids| :: f in AccountFilings(name, ids[i], audit, ctx)
    decreases |ids|
  {
    if |ids| > 0 {
      var pre := ids[..|ids| - 1];
      CategoryFilingsMember(name, pre, audit, ctx, f);
      if f in CategoryFilings(name, ids, audit, ctx) && f !in CategoryFilings(name, pre, audit, ctx) {
        assert f in AccountFilings(name, ids[|ids| - 1], audit, ctx);
      }
      if exists i | 0 <= i < |ids| :: f in AccountFilings(name, ids[i], audit, ctx) {
        var i :| 0 <= i < |ids| && f in AccountFilings(name, ids[i], audit, ctx);
        if i < |pre| {
          assert pre[i] == ids[i];
        }
      }
    }
  }

  lemma {:induction false} CrossFilingsMember(name: string, ids: seq<string>, ctx: Context, f: Filing)
    ensures f in CrossFilings(name, ids, ctx) <==>
      exists i | 0 <= i < |ids| :: ids[i] != ctx.caller && f == Filing(CrossAccountRoles, CrossDisplay(ids[i], ctx), name)
    decreases |ids|
  {
    if |ids| > 0 {
      var pre := ids[..|ids| - 1];
      CrossFilingsMember(name, pre, ctx, f);
      if exists i | 0 <= i < |ids| :: ids[i] != ctx.caller && f == Filing(CrossAccountRoles, CrossDisplay(ids[i], ctx), name) {
        var i :| 0 <= i < |ids| && ids[i] != ctx.caller && f == Filing(CrossAccountRoles, CrossDisplay(ids[i], ctx), name);
        if i < |pre| {
          assert pre[i] == ids[i];
        }
      }
    }
  }

  lemma IamFilingsMember(roles: seq<Role>, ctx: Context, f: Filing)
    ensures f in IamFilings(roles, ctx) <==> exists i | 0 <= i < |roles| :: f in RoleFilings(roles[i], ctx)
  {
    ConcatMapMember(roles, (r: Role) => RoleFilings(r, ctx), f);
  }

  /** Each account of a resource is filed under exactly one of the three categories, unchanged by the audit flag. */
  lemma ExactlyOneCategory(name: string, acct: string, audit: bool, ctx: Context)
    ensures var fs := AccountFilings(name, acct, audit, ctx);
      |set i | 0 <= i < |fs| && fs[i].bucket in {TrustedEntities, KnownVendors, UnknownAccounts}| == 1
  {
    var fs := AccountFilings(name, acct, audit, ctx);
    assert (set i | 0 <= i < |fs| && fs[i].bucket in {TrustedEntities, KnownVendors, UnknownAccounts}) == {0};
  }

  /** A role is vulnerable through key `key` when it has no ExternalId condition and trusts a non-trusted account filed under `key`. */
  predicate VulnerableVia(r: Role, ctx: Context, key: string) {
    !HasExternalId(PolicyOf(r)) &&
    exists a | a in AccountIds(PolicyOf(r)) :: a !in ctx.trusted && Categorise(a, ctx).1 == key
  }

  /** A role gets a cross-account entry under `key` when some extracted account other than the caller displays as `key`. */
  predicate CrossVia(r: Role, ctx: Context, key: string) {
    exists a | a in AccountIds(PolicyOf(r)) :: a != ctx.caller && CrossDisplay(a, ctx) == key
  }

  /** What one role contributes to vulnerable_roles: exactly the keys of its non-trusted accounts, and only without an ExternalId. */
  lemma RoleVulnerable(r: Role, ctx: Context, key: string)
    ensures Filing(VulnerableRoles, key, r.name) in RoleFilings(r, ctx) <==> VulnerableVia(r, ctx, key)
  {
    var policy := PolicyOf(r);
    var ids := AccountIdList(policy);
    var audit := !HasExternalId(policy);
    var f := Filing(VulnerableRoles, key, r.name);
    AccountIdListSound(policy);
    CategoryFilingsMember(r.name, ids, audit, ctx, f);
    CrossFilingsMember(r.name, ids, ctx, f);
    if f in RoleFilings(r, ctx) {
      var i :| 0 <= i < |ids| && f in AccountFilings(r.name, ids[i], audit, ctx);
      AccountFilingsMember(r.name, ids[i], audit, ctx, f);
      assert ids[i] in AccountIds(policy);
    }
    if VulnerableVia(r, ctx, key) {
      var a :| a in AccountIds(policy) && a !in ctx.trusted && Categorise(a, ctx).1 == key;
      var i := Position(ids, a);
      AccountFilingsMember(r.name, a, audit, ctx, f);
    }
  }

  /** What one role contributes to cross_account_roles: one entry per extracted account other than the caller's. */
  lemma RoleCross(r: Role, ctx: Context, key: string)
    ensures Filing(CrossAccountRoles, key, r.name) in RoleFilings(r, ctx) <==> CrossVia(r, ctx, key)
  {
    var policy := PolicyOf(r);
    var ids := AccountIdList(policy);
    var audit := !HasExternalId(policy);
    var f := Filing(CrossAccountRoles, key, r.name);
    AccountIdListSound(policy);
    CategoryFilingsMember(r.name, ids, audit, ctx, f);
    CrossFilingsMember(r.name, ids, ctx, f);
    if f in RoleFilings(r, ctx) {
      var i :| 0 <= i < |ids| && ids[i] != ctx.caller && f == Filing(CrossAccountRoles, CrossDisplay(ids[i], ctx), r.name);
      assert ids[i] in AccountIds(policy);
    }
    if CrossVia(r, ctx, key) {
      var a :| a in AccountIds(policy) && a != ctx.caller && CrossDisplay(a, ctx) == key;
      var i := Position(ids, a);
    }
  }

  /** Every extracted account of a role, the caller's own included, is filed under its category. */
  lemma RoleCategorised(r: Role, ctx: Context, acct: string)
    requires acct in AccountIds(PolicyOf(r))
    ensures Filing(Categorise(acct, ctx).0, Categorise(acct, ctx).1, r.name) in RoleFilings(r, ctx)
  {
    var policy := PolicyOf(r);
    var ids := AccountIdList(policy);
    var audit := !HasExternalId(policy);
    var f := Filing(Categorise(acct, ctx).0, Categorise(acct, ctx).1, r.name);
    AccountIdListSound(policy);
    var i := Position(ids, acct);
    AccountFilingsMember(r.name, acct, audit, ctx, f);
    CategoryFilingsMember(r.name, ids, audit, ctx, f);
  }

  /**
   * The IAM vulnerable_roles map: `name` is listed under `key` exactly when
   * some role of that name is vulnerable through `key`.
   */
  lemma IamVulnerable(roles: seq<Role>, ctx: Context, key: string, name: string)
    ensures var v := Replay(IamFilings(roles, ctx)).vulnerableRoles;
      (key in v && name in v[key]) <==> exists i | 0 <= i < |roles| :: roles[i].name == name && VulnerableVia(roles[i], ctx, key)
  {
    var f := Filing(VulnerableRoles, key, name);
    ReplayMember(IamFilings(roles, ctx), VulnerableRoles, key, name);
    IamFilingsMember(roles, ctx, f);
    if f in IamFilings(roles, ctx) {
      var i :| 0 <= i < |roles| && f in RoleFilings(roles[i], ctx);
      RoleFilingsBuckets(roles[i], ctx, f);
      RoleVulnerable(roles[i], ctx, key);
    }
    if exists i | 0 <= i < |roles| :: roles[i].name == name && VulnerableVia(roles[i], ctx, key) {
      var i :| 0 <= i < |roles| && roles[i].name == name && VulnerableVia(roles[i], ctx, key);
      RoleVulnerable(roles[i], ctx, key);
    }
  }

  /**
   * The IAM cross_account_roles map: `name` is listed under `key` exactly
   * when some role of that name trusts an account other than the caller's
   * that displays as `key`.
   */
  lemma IamCross(roles: seq<Role>, ctx: Context, key: string, name: string)
    ensures var c := Replay(IamFilings(roles, ctx)).crossAccountRoles;
      (key in c && name in c[key]) <==> exists i | 0 <= i < |roles| :: roles[i].name == name && CrossVia(roles[i], ctx, key)
  {
    var f := Filing(CrossAccountRoles, key, name);
    ReplayMember(IamFilings(roles, ctx), CrossAccountRoles, key, name);
    IamFilingsMember(roles, ctx, f);
    if f in IamFilings(roles, ctx) {
      var i :| 0 <= i < |roles| && f in RoleFilings(roles[i], ctx);
      RoleFilingsBuckets(roles[i], ctx, f);
      RoleCross(roles[i], ctx, key);
    }
    if exists i | 0 <= i < |roles| :: roles[i].name == name && CrossVia(roles[i], ctx, key) {
      var i :| 0 <= i < |roles| && roles[i].name == name && CrossVia(roles[i], ctx, key);
      RoleCross(roles[i], ctx, key);
    }
  }

  /** Every filing of a role names the role itself. */
  lemma RoleFilingsBuckets(r: Role, ctx: Context, f: Filing)
    requires f in RoleFilings(r, ctx)
    ensures f.resource == r.name
  {
    var policy := PolicyOf(r);
    var ids := AccountIdList(policy);
    var audit := !HasExternalId(policy);
    CategoryFilingsMember(r.name, ids, audit, ctx, f);
    CrossFilingsMember(r.name, ids, ctx, f);
    if f in CategoryFilings(r.name, ids, audit, ctx) {
      var i :| 0 <= i < |ids| && f in AccountFilings(r.name, ids[i], audit, ctx);
      AccountFilingsMember(r.name, ids[i], audit, ctx, f);
    }
  }

  /** Every vulnerable entry of a role is also one of its known-vendor or unknown entries, under the same key. */
  lemma VulnerableAlsoCategorised(r: Role, ctx: Context, key: string)
    requires Filing(VulnerableRoles, key, r.name) in RoleFilings(r, ctx)
    ensures Filing(KnownVendors, key, r.name) in RoleFilings(r, ctx) || Filing(UnknownAccounts, key, r.name) in RoleFilings(r, ctx)
  {
    RoleVulnerable(r, ctx, key);
    var a :| a in AccountIds(PolicyOf(r)) && a !in ctx.trusted && Categorise(a, ctx).1 == key;
    RoleCategorised(r, ctx, a);
  }

  /** Trusted accounts never reach vulnerable_roles, whatever the policy says. */
  lemma TrustedNeverVulnerable(name: string, acct: string, audit: bool, ctx: Context)
    requires acct in ctx.trusted
    ensures AccountFilings(name, acct, audit, ctx) == [Filing(TrustedEntities, ctx.trusted[acct].name, name)]
  {}

  /** S3 results never have vulnerable or cross-account entries. */
  lemma {:induction false} S3NoOverlay(buckets: seq<S3Bucket>, ctx: Context)
    ensures Replay(S3Filings(buckets, ctx)).vulnerableRoles == map[]
    ensures Replay(S3Filings(buckets, ctx)).crossAccountRoles == map[]
  {
    S3FilingsCategoriesOnly(buckets, ctx);
    ReplayUntouched(S3Filings(buckets, ctx), VulnerableRoles);
    ReplayUntouched(S3Filings(buckets, ctx), CrossAccountRoles);
  }

  lemma {:induction false} S3FilingsCategoriesOnly(buckets: seq<S3Bucket>, ctx: Context)
    ensures forall i | 0 <= i < |S3Filings(buckets, ctx)| :: S3Filings(buckets, ctx)[i].bucket in {TrustedEntities, KnownVendors, UnknownAccounts}
    decreases |buckets|
  {
    if |buckets| > 0 {
      S3FilingsCategoriesOnly(buckets[1..], ctx);
      if buckets[0].policy.Parsed? {
        var name, ids := buckets[0].name, AccountIdList(buckets[0].policy.doc);
        var fs := CategoryFilings(name, ids, false, ctx);
        forall i | 0 <= i < |fs|
          ensures fs[i].bucket in {TrustedEntities, KnownVendors, UnknownAccounts}
        {
          CategoryFilingsMember(name, ids, false, ctx, fs[i]);
          var j :| 0 <= j < |ids| && fs[i] in AccountFilings(name, ids[j], false, ctx);
          AccountFilingsMember(name, ids[j], false, ctx, fs[i]);
        }
      }
    }
  }

  /**
   * The two orders differ: an account both trusted and a known vendor is
   * categorised under its trusted name but displayed in cross_account_roles
   * under its vendor name.
   */
  lemma TrustedAndKnownDisplay(acct: string, ctx: Context)
    requires acct in ctx.trusted && acct in ctx.known
    ensures Categorise(acct, ctx) == (TrustedEntities, ctx.trusted[acct].name)
    ensures CrossDisplay(acct, ctx) == acct + " (" + ctx.known[acct].name + ")"
  {}

  // ---------------------------------------------------------------------
  // Merging and metrics
  // ---------------------------------------------------------------------

  /**
   * The merge of two result maps: the union of the keys; a key in both gets
   * the de-duplicated union of its two lists; a key in one keeps its list.
   */
  function Merged(d1: Listing, d2: Listing): (r: Listing)
    ensures r.Keys == d1.Keys + d2.Keys
    ensures forall k | k in d1 && k in d2 :: NoDup(r[k]) && Elems(r[k]) == Elems(d1[k]) + Elems(d2[k])
    ensures forall k | k in d1 && k !in d2 :: r[k] == d1[k]
    ensures forall k | k in d2 && k !in d1 :: r[k] == d2[k]
  {
    var r := map k | k in d1.Keys + d2.Keys :: if k !in d2 then d1[k] else if k !in d1 then d2[k] else Dedup(d1[k] + d2[k]);
    assert forall k | k in d1 && k in d2 :: Elems(d1[k] + d2[k]) == Elems(d1[k]) + Elems(d2[k]);
    r
  }

  /** `_merge_dicts`: a copy of `d1`, then each key of `d2` added or combined. */
  method MergeDicts(d1: Listing, d2: Listing) returns (result: Listing)
    ensures result == Merged(d1, d2)
  {
    result := d1;
    var rest := d2.Keys;
    while rest != {}
      invariant rest <= d2.Keys
      invariant forall k :: k in result <==> k in d1 || (k in d2 && k !in rest)
      invariant forall k | k in result ::
        result[k] == if k !in d2 || k in rest then d1[k] else if k !in d1 then d2[k] else Dedup(d1[k] + d2[k])
      decreases rest
    {
      var key :| key in rest;
      if key in result {
        result := result[key := Dedup(result[key] + d2[key])];
      } else {
        result := result[key := d2[key]];
      }
      rest := rest - {key};
    }
    assert result.Keys == Merged(d1, d2).Keys;
  }

  /** `sum(len(v) for v in m.values())`. */
  method TotalLength(m: Listing) returns (total: nat)
    ensures total == SumLengths(m)
  {
    total := 0;
    var rest := m.Keys;
    while rest != {}
      invariant rest <= m.Keys
      invariant total + SumOver(m, rest) == SumLengths(m)
      decreases rest
    {
      var k :| k in rest;
      SumOverAt(m, rest, k);
      total := total + |m[k]|;
      rest := rest - {k};
    }
  }

  datatype Metrics = Metrics(
    knownVendorsCount: nat,
    unknownAccountsCount: nat,
    trustedEntitiesCount: nat,
    vulnerableRolesCount: nat,
    crossAccountRolesCount: nat,
    totalCrossAccountRoles: nat)

  /** The merged findings `analyze` returns (timestamps left out). */
  datatype Report = Report(
    iam: Findings,
    s3: Findings,
    summary: string,
    knownVendors: Listing,
    unknownAccounts: Listing,
    trustedEntities: Listing,
    vulnerableRoles: Listing,
    crossAccountRoles: Listing,
    metrics: Metrics)

  /** What the AWS calls and the two fetches return, taken as input. */
  datatype Environment = Environment(
    caller: string,
    aliases: map<string, string>,
    roles: seq<Role>,
    buckets: seq<S3Bucket>,
    knownCatalogue: Option<seq<AccountsEntry>>,
    trustedEntries: Option<seq<AccountsEntry>>)

  /** A reference table from a parsed file, empty when the fetch or the parse failed. */
  function ReferenceTable<V>(src: Option<seq<AccountsEntry>>, info: AccountsEntry -> V): map<string, V> {
    if src.None? then map[] else Table(src.value, info)
  }

  /** The categorisation context `analyze` builds from its inputs. */
  function ContextOf(env: Environment): Context {
    Context(env.caller, ReferenceTable(env.knownCatalogue, KnownInfo), ReferenceTable(env.trustedEntries, TrustedInfo), env.aliases)
  }

  /**
   * `analyze` after the credential checks: the IAM and S3 findings, their
   * merge, and the metrics, each count the number of keys of its map and
   * the total the number of (cross-account key, role) entries.
   */
  method Analyze(env: Environment) returns (r: Report)
    ensures r.iam == Replay(IamFilings(env.roles, ContextOf(env)))
    ensures r.s3 == Replay(S3Filings(env.buckets, ContextOf(env)))
    ensures r.summary == "AWS external access analysis complete"
    ensures r.knownVendors == Merged(r.iam.knownVendors, r.s3.knownVendors)
    ensures r.unknownAccounts == Merged(r.iam.unknownAccounts, r.s3.unknownAccounts)
    ensures r.trustedEntities == Merged(r.iam.trustedEntities, r.s3.trustedEntities)
    ensures r.vulnerableRoles == r.iam.vulnerableRoles && r.crossAccountRoles == r.iam.crossAccountRoles
    ensures r.metrics.knownVendorsCount == |r.knownVendors|
    ensures r.metrics.unknownAccountsCount == |r.unknownAccounts|
    ensures r.metrics.trustedEntitiesCount == |r.trustedEntities|
    ensures r.metrics.vulnerableRolesCount == |r.vulnerableRoles|
    ensures r.metrics.crossAccountRolesCount == |r.crossAccountRoles|
    ensures r.metrics.totalCrossAccountRoles == Count(IamFilings(env.roles, ContextOf(env)), CrossAccountRoles)
  {
    var known := FetchReferenceData(env.knownCatalogue);
    var trusted := FetchTrustedAccounts(env.trustedEntries);
    var ctx := Context(env.caller, known, trusted, env.aliases);
    assert ctx == ContextOf(env);
    var iamResults := CheckIamRoles(env.roles, ctx);
    var s3Results := CheckS3Buckets(env.buckets, ctx);
    var knownVendors := MergeDicts(iamResults.knownVendors, s3Results.knownVendors);
    var unknownAccounts := MergeDicts(iamResults.unknownAccounts, s3Results.unknownAccounts);
    var trustedEntities := MergeDicts(iamResults.trustedEntities, s3Results.trustedEntities);
    var total := TotalLength(iamResults.crossAccountRoles);
    SumLengthsReplay(IamFilings(env.roles, ctx), CrossAccountRoles);
    var metrics := Metrics(|knownVendors|, |unknownAccounts|, |trustedEntities|,
      |iamResults.vulnerableRoles|, |iamResults.crossAccountRoles|, total);
    r := Report(iamResults, s3Results, "AWS external access analysis complete",
      knownVendors, unknownAccounts, trustedEntities, iamResults.vulnerableRoles, iamResults.crossAccountRoles, metrics);
  }

  /** Per role, the total counts one entry for each extracted account other than the caller's. */
  function NonCallerCount(ids: seq<string>, caller: string): nat {
    if |ids| == 0 then 0 else NonCallerCount(ids[..|ids| - 1], caller) + (if ids[|ids| - 1] != caller then 1 else 0)
  }

  lemma {:induction false} CrossCount(name: string, ids: seq<string>, audit: bool, ctx: Context)
    ensures Count(CrossFilings(name, ids, ctx), CrossAccountRoles) == NonCallerCount(ids, ctx.caller)
    ensures Count(CategoryFilings(name, ids, audit, ctx), CrossAccountRoles) == 0
    decreases |ids|
  {
    if |ids| > 0 {
      var pre := ids[..|ids| - 1];
      CrossCount(name, pre, audit, ctx);
      CountAppend(CrossFilings(name, pre, ctx), CrossFiling(name, ids[|ids| - 1], ctx), CrossAccountRoles);
      CountAppend(CategoryFilings(name, pre, audit, ctx), AccountFilings(name, ids[|ids| - 1], audit, ctx), CrossAccountRoles);
      var a := AccountFilings(name, ids[|ids| - 1], audit, ctx);
      assert Count(a, CrossAccountRoles) == 0 by {
        if |a| == 2 {
          assert a[..1][..0] == [];
        }
      }
      var c := CrossFiling(name, ids[|ids| - 1], ctx);
      assert |c| > 0 ==> c[..0] == [];
    }
  }

  /** total_cross_account_roles adds, over all roles, the number of extracted accounts other than the caller's. */
  lemma {:induction false} TotalCrossAccountRoles(roles: seq<Role>, ctx: Context)
    ensures |roles| == 0 ==> Count(IamFilings(roles, ctx), CrossAccountRoles) == 0
    ensures |roles| > 0 ==>
      Count(IamFilings(roles, ctx), CrossAccountRoles) == Count(IamFilings(roles[..|roles| - 1], ctx), CrossAccountRoles) + NonCallerCount(AccountIdList(PolicyOf(roles[|roles| - 1])), ctx.caller)
  {
    if |roles| > 0 {
      var r := roles[|roles| - 1];
      var ids := AccountIdList(PolicyOf(r));
      var audit := !HasExternalId(PolicyOf(r));
      CountAppend(IamFilings(roles[..|roles| - 1], ctx), RoleFilings(r, ctx), CrossAccountRoles);
      CountAppend(CrossFilings(r.name, ids, ctx), CategoryFilings(r.name, ids, audit, ctx), CrossAccountRoles);
      CrossCount(r.name, ids, audit, ctx);
    }
  }
}
