/**
 * The A2A server: the aggregated agent card served at
 * `/.well-known/agent.json`, the start-up cross-check of the agent IDs the
 * cards name against the registry, and the JSON-RPC 2.0 dispatch of
 * `tasks/send` requests posted to `/a2a/analyzer/{agent_id}`.
 *
 * Where Python would raise on a JSON value of an unexpected shape (`.get` on
 * a non-dict, iterating a number, hashing a list) the model returns an
 * explicit error; inside a request handler such an exception is the
 * JSON-RPC internal error.
 */
module A2AServer {
  import opened Wrappers
  import opened JsonValue
  import opened Strings
  import AgentRegistry

  /** `d.get(key, default)`; a non-dict has no keys. */
  function Field(j: Json, key: string, default: Json): Json {
    Get(j, key).GetOr(default)
  }

  // ---------------------------------------------------------------------
  // The aggregated agent card
  // ---------------------------------------------------------------------

  /** `AGENT_CARDS`: each loaded card's file name and JSON, in loading order. */
  type Cards = seq<(string, Json)>

  /**
   * `for x in v` where `.get` is then called on every item: a list of dicts
   * gives its items, an empty dict or string gives none; anything else
   * raises (a non-iterable, or an item that is not a dict).
   */
  function DictItems(v: Json): (r: Option<seq<Json>>)
    ensures r.Some? ==> forall i | 0 <= i < |r.value| :: r.value[i].Obj?
  {
    match v
    case Arr(items) => if forall i | 0 <= i < |items| :: items[i].Obj? then Some(items) else None
    case Obj(fields) => if |fields| == 0 then Some([]) else None
    case Str(s) => if |s| == 0 then Some([]) else None
    case _ => None
  }

  /** One skill met while iterating the cards: the card's name and JSON, and the skill. */
  datatype Entry = Entry(cardName: string, card: Json, skill: Json)

  function EntriesOf(cardName: string, card: Json, skills: seq<Json>): (r: seq<Entry>)
    ensures |r| == |skills|
    ensures forall k | 0 <= k < |r| :: r[k] == Entry(cardName, card, skills[k])
  {
    if |skills| == 0 then []
    else EntriesOf(cardName, card, skills[..|skills| - 1]) + [Entry(cardName, card, skills[|skills| - 1])]
  }

  /** The skills of one card, `card_data.get("skills", [])`, or None where iterating them raises. */
  function CardEntries(cardName: string, card: Json): Option<seq<Entry>> {
    if !card.Obj? then None
    else
      match DictItems(Field(card, "skills", Arr([])))
      case None => None
      case Some(skills) => Some(EntriesOf(cardName, card, skills))
  }

  /** Every skill of every card, in iteration order, or None where iterating raises. */
  function Entries(cards: Cards): Option<seq<Entry>> {
    if |cards| == 0 then Some([])
    else
      var last := cards[|cards| - 1];
      match (Entries(cards[..|cards| - 1]), CardEntries(last.0, last.1))
      case (Some(pre), Some(es)) => Some(pre + es)
      case _ => None
  }

  /** `f"{card_name}:{skill_id}"`, the key under which a skill counts as seen. */
  function SkillKey(cardName: string, skill: Json): string {
    cardName + ":" + PyStr(Field(skill, "id", Null))
  }

  /** The card name's text before the first `" Agent"`, or None when the name is not a string. */
  function CardPrefix(card: Json): Option<string> {
    var name := Field(card, "name", Str(""));
    if name.Str? then Some(TextBefore(name.s, " Agent")) else None
  }

  /**
   * The copy of a skill the aggregated card lists: when the card's prefix is
   * non-empty and the skill's name does not start with it, the name becomes
   * `"{prefix} - {name or id}"`; every other key is the skill's own. None
   * where Python raises: a card name or a consulted skill name that is not a
   * string.
   */
  function Renamed(e: Entry): (r: Option<Json>)
    ensures r.Some? ==> e.skill.Obj? && r.value.Obj? && forall k | k != "name" :: Get(r.value, k) == Get(e.skill, k)
    ensures r.None? <==> (!e.skill.Obj? || CardPrefix(e.card).None? ||
      (CardPrefix(e.card).value != "" && !Field(e.skill, "name", Str("")).Str?))
    ensures r.Some? && (CardPrefix(e.card).value == "" || StartsWith(Field(e.skill, "name", Str("")).s, CardPrefix(e.card).value)) ==>
      r.value == e.skill
    ensures r.Some? && CardPrefix(e.card).value != "" && !StartsWith(Field(e.skill, "name", Str("")).s, CardPrefix(e.card).value) ==>
      Get(r.value, "name") == Some(Str(CardPrefix(e.card).value + " - " + PyStr(Field(e.skill, "name", Field(e.skill, "id", Null)))))
  {
    if !e.skill.Obj? then None
    else
      match CardPrefix(e.card)
      case None => None
      case Some(prefix) =>
        var name := Field(e.skill, "name", Str(""));
        if prefix == "" then Some(e.skill)
        else if !name.Str? then None
        else if StartsWith(name.s, prefix) then Some(e.skill)
        else Some(Obj(Assign(e.skill.fields, "name", Str(prefix + " - " + PyStr(Field(e.skill, "name", Field(e.skill, "id", Null)))))))
  }

  /** `seen_skills` (as the keys in the order they were first seen) and the aggregated skills. */
  datatype Aggregation = Aggregation(keys: seq<string>, skills: seq<Json>)

  /** One step of the loop: a skill whose key is new is renamed and appended; a seen key is skipped; a skill that is not a dict raises. */
  function AddSkill(acc: Aggregation, e: Entry): Option<Aggregation> {
    var key := SkillKey(e.cardName, e.skill);
    if !e.skill.Obj? then None
    else if key in acc.keys then Some(acc)
    else
      match Renamed(e)
      case None => None
      case Some(copy) => Some(Aggregation(acc.keys + [key], acc.skills + [copy]))
  }

  /** The loop over all skills, or None where it raises. */
  function Aggregate(es: seq<Entry>): Option<Aggregation> {
    if |es| == 0 then Some(Aggregation([], []))
    else
      match Aggregate(es[..|es| - 1])
      case None => None
      case Some(acc) => AddSkill(acc, es[|es| - 1])
  }

  /** Why `/.well-known/agent.json` answers 500: no card is loaded, or a card's contents make Python raise. */
  datatype CardError = NoCardsLoaded | Malformed

  /** The skills of the aggregated card. */
  function AggregatedSkills(cards: Cards): Result<seq<Json>, CardError> {
    if |cards| == 0 then Err(NoCardsLoaded)
    else
      match Entries(cards)
      case None => Err(Malformed)
      case Some(es) =>
        match Aggregate(es)
        case None => Err(Malformed)
        case Some(acc) => Ok(acc.skills)
  }

  /** The aggregated card around its skills. */
  function HubCard(skills: seq<Json>): Json {
    Obj([
      ("name", Str("Valide5 A2A Agent Hub")),
      ("description", Str("Provides multiple security analysis capabilities via A2A protocol")),
      ("url", Str("YOUR_SERVER_BASE_URL")),
      ("version", Str("1.0.0")),
      ("capabilities", Obj([("streaming", Bool(false)), ("pushNotifications", Bool(false)), ("stateTransitionHistory", Bool(false))])),
      ("authentication", Null),
      ("defaultInputModes", Arr([Str("text"), Str("json")])),
      ("defaultOutputModes", Arr([Str("json")])),
      ("skills", Arr(skills))
    ])
  }

  /** An entry sequence with a failing prefix fails. */
  lemma {:induction false} AggregateFails(es: seq<Entry>, n: nat)
    requires n <= |es| && Aggregate(es[..n]).None?
    ensures Aggregate(es).None?
    decreases |es| - n
  {
    if n < |es| {
      assert es[..n + 1][..n] == es[..n];
      assert Aggregate(es[..n + 1]).None?;
      AggregateFails(es, n + 1);
    } else {
      assert es[..n] == es;
    }
  }

  /** Cards with a failing prefix fail. */
  lemma {:induction false} EntriesFail(cards: Cards, n: nat)
    requires n <= |cards| && Entries(cards[..n]).None?
    ensures Entries(cards).None?
    decreases |cards| - n
  {
    if n < |cards| {
      assert cards[..n + 1][..n] == cards[..n];
      assert Entries(cards[..n + 1]).None?;
      EntriesFail(cards, n + 1);
    } else {
      assert cards[..n] == cards;
    }
  }

  /** The entries of a successful prefix of the cards begin the entries of all of them. */
  lemma {:induction false} EntriesPrefix(cards: Cards, n: nat)
    requires n <= |cards| && Entries(cards).Some?
    ensures Entries(cards[..n]).Some? && Entries(cards[..n]).value <= Entries(cards).value
    decreases |cards| - n
  {
    if n < |cards| {
      EntriesPrefix(cards, n + 1);
      assert cards[..n + 1][..n] == cards[..n];
    } else {
      assert cards[..n] == cards;
    }
  }

  /** One more card: its entries follow those of the cards before it. */
  lemma EntriesSnoc(cards: Cards, i: nat)
    requires i < |cards|
    ensures Entries(cards[..i + 1]) ==
      match (Entries(cards[..i]), CardEntries(cards[i].0, cards[i].1))
      case (Some(pre), Some(es)) => Some(pre + es)
      case _ => None
  {
    assert cards[..i + 1][..i] == cards[..i];
    assert cards[..i + 1][i] == cards[i];
  }

  /** When the loop raises on a prefix of the skills, the whole aggregation fails. */
  lemma AggregateFailsWithin(cards: Cards, done: seq<Entry>)
    requires |cards| > 0 && Aggregate(done).None?
    requires Entries(cards).Some? ==> done <= Entries(cards).value
    ensures AggregatedSkills(cards) == Err(Malformed)
  {
    if Entries(cards).Some? {
      var es := Entries(cards).value;
      assert es[..|done|] == done;
      AggregateFails(es, |done|);
    }
  }

  /** One step of the loop over a card's skills. */
  method AddOneSkill(seen: set<string>, skills: seq<Json>, ghost keys: seq<string>, e: Entry)
    returns (ok: bool, seen': set<string>, skills': seq<Json>, ghost keys': seq<string>)
    requires seen == Elems(keys)
    ensures ok <==> AddSkill(Aggregation(keys, skills), e).Some?
    ensures ok ==> AddSkill(Aggregation(keys, skills), e) == Some(Aggregation(keys', skills')) && seen' == Elems(keys')
  {
    var skill := e.skill;
    if !skill.Obj? {
      return false, seen, skills, keys;
    }
    var key := e.cardName + ":" + PyStr(Field(skill, "id", Null));
    if key in seen {
      return true, seen, skills, keys;
    }
    var copy := skill;
    var name := Field(e.card, "name", Str(""));
    if !name.Str? {
      return false, seen, skills, keys;
    }
    var prefix := TextBefore(name.s, " Agent");
    if prefix != "" {
      var skillName := Field(skill, "name", Str(""));
      if !skillName.Str? {
        return false, seen, skills, keys;
      }
      if !StartsWith(skillName.s, prefix) {
        copy := Obj(Assign(skill.fields, "name", Str(prefix + " - " + PyStr(Field(skill, "name", Field(skill, "id", Null))))));
      }
    }
    return true, seen + {key}, skills + [copy], keys + [key];
  }

  /** One more skill of a card extends its entries by one. */
  lemma EntriesSnocItems(done: seq<Entry>, cardName: string, card: Json, items: seq<Json>, j: nat)
    requires j < |items|
    ensures done + EntriesOf(cardName, card, items[..j + 1]) == done + EntriesOf(cardName, card, items[..j]) + [Entry(cardName, card, items[j])]
  {
    assert items[..j + 1][..j] == items[..j];
  }

  /** The loop over the entries, one entry further. */
  lemma AggregateSnoc(es: seq<Entry>, e: Entry)
    ensures Aggregate(es + [e]) == if Aggregate(es).None? then None else AddSkill(Aggregate(es).value, e)
  {
    assert (es + [e])[..|es|] == es;
  }

  /** The skills of one card added at the end of the entries met so far. */
  method AddCardSkills(seen: set<string>, skills: seq<Json>, ghost keys: seq<string>, ghost done: seq<Entry>,
                       cardName: string, card: Json, items: seq<Json>)
    returns (ok: bool, seen': set<string>, skills': seq<Json>, ghost keys': seq<string>)
    requires Aggregate(done) == Some(Aggregation(keys, skills)) && seen == Elems(keys)
    ensures ok ==> Aggregate(done + EntriesOf(cardName, card, items)) == Some(Aggregation(keys', skills')) && seen' == Elems(keys')
    ensures !ok ==> exists j | 0 <= j <= |items| :: Aggregate(done + EntriesOf(cardName, card, items[..j])).None?
  {
    seen', skills', keys' := seen, skills, keys;
    assert items[..0] == [];
    assert done + EntriesOf(cardName, card, []) == done;
    for j := 0 to |items|
      invariant Aggregate(done + EntriesOf(cardName, card, items[..j])) == Some(Aggregation(keys', skills')) && seen' == Elems(keys')
    {
      EntriesSnocItems(done, cardName, card, items, j);
      AggregateSnoc(done + EntriesOf(cardName, card, items[..j]), Entry(cardName, card, items[j]));
      var stepOk;
      stepOk, seen', skills', keys' := AddOneSkill(seen', skills', keys', Entry(cardName, card, items[j]));
      if !stepOk {
        assert Aggregate(done + EntriesOf(cardName, card, items[..j + 1])).None?;
        return false, seen', skills', keys';
      }
    }
    assert items[..|items|] == items;
    return true, seen', skills', keys';
  }

  /** `card_data.get("skills", [])` as the loop iterates it, or None where iterating it raises. */
  method SkillItems(card: Json) returns (r: Option<seq<Json>>)
    ensures r == DictItems(Field(card, "skills", Arr([])))
  {
    match Field(card, "skills", Arr([])) {
      case Arr(xs) =>
        for k := 0 to |xs|
          invariant forall k' | 0 <= k' < k :: xs[k'].Obj?
        {
          if !xs[k].Obj? {
            return None;
          }
        }
        return Some(xs);
      case Obj(fields) => return if |fields| == 0 then Some([]) else None;
      case Str(s) => return if |s| == 0 then Some([]) else None;
      case _ => return None;
    }
  }

  /** When the loop raises within one card's skills, the whole aggregation fails. */
  lemma CardSkillsFail(cards: Cards, i: nat, done: seq<Entry>, cardName: string, card: Json, items: seq<Json>, j: nat)
    requires i < |cards| && Entries(cards[..i + 1]) == Some(done + EntriesOf(cardName, card, items))
    requires j <= |items| && Aggregate(done + EntriesOf(cardName, card, items[..j])).None?
    ensures AggregatedSkills(cards) == Err(Malformed)
  {
    if Entries(cards).Some? {
      EntriesPrefix(cards, i + 1);
      assert EntriesOf(cardName, card, items[..j]) <= EntriesOf(cardName, card, items);
    }
    AggregateFailsWithin(cards, done + EntriesOf(cardName, card, items[..j]));
  }

  /** `get_agent_card`: the aggregated card, or the 500 error. */
  method GetAgentCard(cards: Cards) returns (r: Result<Json, CardError>)
    ensures AggregatedSkills(cards).Ok? ==> r == Ok(HubCard(AggregatedSkills(cards).value))
    ensures AggregatedSkills(cards).Err? ==> r == Err(AggregatedSkills(cards).error)
  {
    if |cards| == 0 {
      return Err(NoCardsLoaded);
    }
    var seen: set<string> := {};
    var skills: seq<Json> := [];
    ghost var keys: seq<string> := [];
    ghost var done: seq<Entry> := [];
    for i := 0 to |cards|
      invariant Entries(cards[..i]) == Some(done)
      invariant Aggregate(done) == Some(Aggregation(keys, skills)) && seen == Elems(keys)
    {
      EntriesSnoc(cards, i);
      var (cardName, card) := cards[i];
      var items := SkillItems(card);
      if !card.Obj? || items.None? {
        EntriesFail(cards, i + 1);
        return Err(Malformed);
      }
      assert Entries(cards[..i + 1]) == Some(done + EntriesOf(cardName, card, items.value));
      var ok;
      ghost var keys';
      ok, seen, skills, keys' := AddCardSkills(seen, skills, keys, done, cardName, card, items.value);
      if !ok {
        ghost var j :| 0 <= j <= |items.value| && Aggregate(done + EntriesOf(cardName, card, items.value[..j])).None?;
        CardSkillsFail(cards, i, done, cardName, card, items.value, j);
        return Err(Malformed);
      }
      keys := keys';
      done := done + EntriesOf(cardName, card, items.value);
    }
    assert cards[..|cards|] == cards;
    return Ok(HubCard(skills));
  }

  /** The key a skill entry counts under. */
  function KeyOf(e: Entry): string {
    SkillKey(e.cardName, e.skill)
  }

  /** `es[i]` is the first entry with that key. */
  predicate FirstWithKey(es: seq<Entry>, i: int, key: string) {
    0 <= i < |es| && KeyOf(es[i]) == key && forall i' | 0 <= i' < i :: KeyOf(es[i']) != key
  }

  /** The keys of the entries, as a set. */
  function KeySet(es: seq<Entry>): set<string> {
    if |es| == 0 then {} else KeySet(es[..|es| - 1]) + {KeyOf(es[|es| - 1])}
  }

  lemma {:induction false} KeySetMeaning(es: seq<Entry>)
    ensures forall k :: k in KeySet(es) <==> exists i | 0 <= i < |es| :: KeyOf(es[i]) == k
  {
    if |es| > 0 {
      var pre := es[..|es| - 1];
      KeySetMeaning(pre);
      forall k
        ensures k in KeySet(es) <==> exists i | 0 <= i < |es| :: KeyOf(es[i]) == k
      {
        if k in KeySet(pre) {
          var i :| 0 <= i < |pre| && KeyOf(pre[i]) == k;
          assert KeyOf(es[i]) == k;
        } else if k != KeyOf(es[|es| - 1]) {
          forall i | 0 <= i < |es|
            ensures KeyOf(es[i]) != k
          {
            if i < |pre| {
              assert KeyOf(pre[i]) != k;
            }
          }
        }
      }
    }
  }

  /** A step of the loop adds the entry's key to the keys seen, and a skill exactly when the key is new. */
  lemma AddSkillKeys(acc: Aggregation, e: Entry)
    requires AddSkill(acc, e).Some?
    ensures AddSkill(acc, e).value.keys == Add(acc.keys, KeyOf(e))
    ensures |AddSkill(acc, e).value.skills| - |AddSkill(acc, e).value.keys| == |acc.skills| - |acc.keys|
  {
  }

  /** The aggregated skills hold one skill per key, and the keys are those of the entries. */
  lemma {:induction false} AggregateKeySet(es: seq<Entry>)
    requires Aggregate(es).Some?
    ensures NoDup(Aggregate(es).value.keys) && |Aggregate(es).value.keys| == |Aggregate(es).value.skills|
    ensures Elems(Aggregate(es).value.keys) == KeySet(es)
  {
    if |es| > 0 {
      var pre := es[..|es| - 1];
      AggregateKeySet(pre);
      AddSkillKeys(Aggregate(pre).value, es[|es| - 1]);
    }
  }

  /** The aggregated skills hold one skill per key, and every key of the cards' skills occurs. */
  lemma AggregateKeys(es: seq<Entry>)
    requires Aggregate(es).Some?
    ensures var acc := Aggregate(es).value;
      NoDup(acc.keys) && |acc.keys| == |acc.skills| &&
      forall key :: key in acc.keys <==> exists i | 0 <= i < |es| :: KeyOf(es[i]) == key
  {
    AggregateKeySet(es);
    KeySetMeaning(es);
  }

  /** Each listed skill is the renamed copy of the first skill with its key. */
  lemma {:induction false} AggregateFirst(es: seq<Entry>)
    requires Aggregate(es).Some?
    ensures var acc := Aggregate(es).value;
      forall j | 0 <= j < |acc.keys| && j < |acc.skills| :: exists i :: FirstWithKey(es, i, acc.keys[j]) && Renamed(es[i]) == Some(acc.skills[j])
  {
    if |es| > 0 {
      var pre := es[..|es| - 1];
      AggregateFirst(pre);
      AggregateKeys(pre);
      var acc := Aggregate(pre).value;
      var acc' := Aggregate(es).value;
      var e := es[|es| - 1];
      forall j | 0 <= j < |acc'.keys| && j < |acc'.skills|
        ensures exists i :: FirstWithKey(es, i, acc'.keys[j]) && Renamed(es[i]) == Some(acc'.skills[j])
      {
        if j < |acc.keys| {
          assert acc'.keys[j] == acc.keys[j] && acc'.skills[j] == acc.skills[j];
          var i :| FirstWithKey(pre, i, acc.keys[j]) && Renamed(pre[i]) == Some(acc.skills[j]);
          assert pre[i] == es[i];
          assert forall i' | 0 <= i' < i :: pre[i'] == es[i'];
          assert FirstWithKey(es, i, acc'.keys[j]);
        } else {
          assert KeyOf(e) !in acc.keys && acc'.keys[j] == KeyOf(e);
          assert forall i' | 0 <= i' < |pre| :: pre[i'] == es[i'] && KeyOf(pre[i']) in acc.keys;
          assert FirstWithKey(es, |es| - 1, acc'.keys[j]);
        }
      }
    }
  }

  /** The keys are listed in the order of the entries that first carry them. */
  ghost predicate KeysInOrder(es: seq<Entry>, keys: seq<string>) {
    forall j, j', i, i' | 0 <= j < j' < |keys| && FirstWithKey(es, i, keys[j]) && FirstWithKey(es, i', keys[j']) :: i < i'
  }

  /** The listed skills follow the order in which their keys first occur. */
  lemma {:induction false} AggregateOrder(es: seq<Entry>)
    requires Aggregate(es).Some?
    ensures var keys := Aggregate(es).value.keys;
      forall j, j', i, i' | 0 <= j < j' < |keys| && FirstWithKey(es, i, keys[j]) && FirstWithKey(es, i', keys[j']) :: i < i'
  {
    if |es| > 0 {
      var pre := es[..|es| - 1];
      AggregateOrder(pre);
      AggregateKeys(pre);
      AddSkillKeys(Aggregate(pre).value, es[|es| - 1]);
      KeysInOrderStep(es, pre, Aggregate(pre).value.keys);
    }
  }

  /** One more entry: its key, when new, goes last, after every key of the entries before it. */
  lemma KeysInOrderStep(es: seq<Entry>, pre: seq<Entry>, keys: seq<string>)
    requires |es| > 0 && pre == es[..|es| - 1] && KeysInOrder(pre, keys)
    requires forall k :: k in keys <==> exists i0 | 0 <= i0 < |pre| :: KeyOf(pre[i0]) == k
    ensures KeysInOrder(es, Add(keys, KeyOf(es[|es| - 1])))
  {
    var keys' := Add(keys, KeyOf(es[|es| - 1]));
    assert keys' == keys || keys' == keys + [KeyOf(es[|es| - 1])];
    forall j, j', i, i' | 0 <= j < j' < |keys'| && FirstWithKey(es, i, keys'[j]) && FirstWithKey(es, i', keys'[j'])
      ensures i < i'
    {
      assert keys'[j] == keys[j];
      FirstInPrefix(es, pre, i, keys[j], keys);
      if j' < |keys| {
        assert keys'[j'] == keys[j'];
        FirstInPrefix(es, pre, i', keys[j'], keys);
        assert FirstWithKey(pre, i, keys[j]) && FirstWithKey(pre, i', keys[j']);
      } else {
        NewKeyLast(es, pre, i', keys'[j'], keys);
      }
    }
  }

  /** The first entry with a key that the entries before the last do not hold is the last. */
  lemma NewKeyLast(es: seq<Entry>, pre: seq<Entry>, i: int, key: string, keys: seq<string>)
    requires |es| > 0 && pre == es[..|es| - 1] && FirstWithKey(es, i, key) && key !in keys
    requires forall k :: k in keys <==> exists i0 | 0 <= i0 < |pre| :: KeyOf(pre[i0]) == k
    ensures i == |pre|
  {
  }

  /** The first entry with a key that the entries before the last already hold lies before the last. */
  lemma FirstInPrefix(es: seq<Entry>, pre: seq<Entry>, i: int, key: string, keys: seq<string>)
    requires |es| > 0 && pre == es[..|es| - 1] && FirstWithKey(es, i, key) && key in keys
    requires forall k :: k in keys <==> exists i0 | 0 <= i0 < |pre| :: KeyOf(pre[i0]) == k
    ensures i < |pre| && FirstWithKey(pre, i, key)
  {
    var i0 :| 0 <= i0 < |pre| && KeyOf(pre[i0]) == key;
    assert pre[i0] == es[i0];
    assert i <= i0;
  }

  /** Skills with the same ID from different cards get different keys, and so are all kept. */
  lemma SameIdDifferentCards(card1: string, card2: string, skill1: Json, skill2: Json)
    requires card1 != card2 && Field(skill1, "id", Null) == Field(skill2, "id", Null)
    ensures SkillKey(card1, skill1) != SkillKey(card2, skill2)
  {
    var id := PyStr(Field(skill1, "id", Null));
    if |card1| == |card2| {
      assert (card1 + ":" + id)[..|card1|] == card1;
      assert (card2 + ":" + id)[..|card2|] == card2;
    } else {
      assert |card1 + ":" + id| != |card2 + ":" + id|;
    }
  }

  // ---------------------------------------------------------------------
  // Cards against registry
  // ---------------------------------------------------------------------

  /** The suffix of agent IDs announced but not implemented. */
  const ComingSoonSuffix: string := "_coming_soon"

  /**
   * `for x in v` where `.endswith` is then called on every item: a list of
   * strings gives them, a dict its keys, a string its characters; anything
   * else raises.
   */
  function StringItems(v: Json): Option<seq<string>> {
    match v
    case Arr(items) =>
      if forall i | 0 <= i < |items| :: items[i].Str? then Some(seq(|items|, i requires 0 <= i < |items| && items[i].Str? => items[i].s))
      else None
    case Obj(fields) => Some(seq(|fields|, i requires 0 <= i < |fields| => fields[i].0))
    case Str(s) => Some(seq(|s|, i requires 0 <= i < |s| => [s[i]]))
    case _ => None
  }

  /** `card_data.get("agent_ids", [])` as iterated, or None where it raises. */
  function CardIds(card: Json): Option<seq<string>> {
    if card.Obj? then StringItems(Field(card, "agent_ids", Arr([]))) else None
  }

  /** `card_agent_ids`: the agent IDs the cards name, without the coming-soon ones; None where iterating raises. */
  function CardAgentIds(cards: Cards): (r: Option<set<string>>)
    ensures r.None? <==> exists i | 0 <= i < |cards| :: CardIds(cards[i].1).None?
    ensures r.Some? ==> forall x :: x in r.value <==>
      !EndsWith(x, ComingSoonSuffix) && exists i | 0 <= i < |cards| :: x in CardIds(cards[i].1).value
  {
    if |cards| == 0 then Some({})
    else
      var pre := cards[..|cards| - 1];
      assert forall i | 0 <= i < |pre| :: pre[i] == cards[i];
      match (CardAgentIds(pre), CardIds(cards[|cards| - 1].1))
      case (Some(ids), Some(last)) => Some(ids + set x | x in last && !EndsWith(x, ComingSoonSuffix))
      case _ => None
  }

  /** What `validate_agents_and_cards` computes and logs. */
  datatype Validation = Validation(cardIds: set<string>, registryIds: set<string>,
                                   missingImplementations: set<string>, missingCards: set<string>)

  /** `validate_agents_and_cards`, run at start-up; None where it raises. */
  function Validate(cards: Cards, registry: AgentRegistry.Table): (r: Option<Validation>)
    ensures r.None? <==> CardAgentIds(cards).None?
    ensures r.Some? ==> r.value.cardIds == CardAgentIds(cards).value && r.value.registryIds == registry.Keys
    ensures r.Some? ==> forall x :: x in r.value.missingImplementations <==> x in r.value.cardIds && x !in registry
    ensures r.Some? ==> forall x :: x in r.value.missingCards <==> x in registry && x !in r.value.cardIds
  {
    match CardAgentIds(cards)
    case None => None
    case Some(cardIds) =>
      var registryIds := registry.Keys;
      Some(Validation(cardIds, registryIds, cardIds - registryIds, registryIds - cardIds))
  }

  /** Neither warning is logged exactly when the cards name the registered agents and no others. */
  lemma NoWarningsIffAgree(cards: Cards, registry: AgentRegistry.Table)
    requires Validate(cards, registry).Some?
    ensures var v := Validate(cards, registry).value;
      (v.missingImplementations == {} && v.missingCards == {}) <==> v.cardIds == v.registryIds
  {
    var v := Validate(cards, registry).value;
    if v.missingImplementations == {} && v.missingCards == {} {
      forall x | x in v.cardIds ensures x in v.registryIds {
        assert x !in v.missingImplementations;
      }
      forall x | x in v.registryIds ensures x in v.cardIds {
        assert x !in v.missingCards;
      }
    }
  }

  /** A coming-soon agent ID is never reported as lacking an implementation. */
  lemma ComingSoonNeverMissing(cards: Cards, registry: AgentRegistry.Table, x: string)
    requires Validate(cards, registry).Some? && EndsWith(x, ComingSoonSuffix)
    ensures x !in Validate(cards, registry).value.missingImplementations
  {
  }

  // ---------------------------------------------------------------------
  // JSON-RPC dispatch
  // ---------------------------------------------------------------------

  /** The error codes the server answers with (section 5.1 of the JSON-RPC 2.0 Specification, and one server error). */
  const ComingSoon: int := -32001
  const ParseError: int := -32700
  const InvalidRequest: int := -32600
  const MethodNotFound: int := -32601
  const InternalError: int := -32603

  /** An HTTP response: its status and JSON content. */
  datatype Response = Response(status: nat, body: Json)

  function ErrorBody(code: int, message: string, id: Json): Json {
    Obj([("jsonrpc", Str("2.0")), ("error", Obj([("code", Num(code)), ("message", Str(message))])), ("id", id)])
  }

  /** The `error.code` of a response body, if it has one. */
  function ErrorCode(body: Json): Option<int> {
    var e := Field(body, "error", Null);
    var c := Field(e, "code", Null);
    if c.Num? then Some(c.n) else None
  }

  /** One part as the override loop leaves it: a truthy `json` gets `agent_id` set; None where Python raises. */
  function OverridePart(part: Json, agentId: string): (r: Option<Json>)
    ensures r.None? <==> !part.Obj? || (Truthy(Field(part, "json", Null)) && !Field(part, "json", Null).Obj?)
    ensures r.Some? && !Truthy(Field(part, "json", Null)) ==> r.value == part
    ensures r.Some? && Truthy(Field(part, "json", Null)) ==>
      r.value.Obj? && (forall k | k != "json" :: Get(r.value, k) == Get(part, k)) &&
      var j := Field(r.value, "json", Null);
      j.Obj? && Get(j, "agent_id") == Some(Str(agentId)) &&
      forall k | k != "agent_id" :: Get(j, k) == Get(Field(part, "json", Null), k)
  {
    if !part.Obj? then None
    else
      var j := Field(part, "json", Null);
      if !Truthy(j) then Some(part)
      else if !j.Obj? then None
      else Some(Obj(Assign(part.fields, "json", Obj(Assign(j.fields, "agent_id", Str(agentId))))))
  }

  /** The override loop over the first message's parts. */
  function OverrideParts(parts: seq<Json>, agentId: string): (r: Option<seq<Json>>)
    ensures r.None? <==> exists k | 0 <= k < |parts| :: OverridePart(parts[k], agentId).None?
    ensures r.Some? ==> |r.value| == |parts| && forall k | 0 <= k < |parts| :: OverridePart(parts[k], agentId) == Some(r.value[k])
  {
    if |parts| == 0 then Some([])
    else
      var pre := parts[..|parts| - 1];
      assert forall k | 0 <= k < |pre| :: pre[k] == parts[k];
      match (OverrideParts(pre, agentId), OverridePart(parts[|parts| - 1], agentId))
      case (Some(ps), Some(p)) => Some(ps + [p])
      case _ => None
  }

  /**
   * `params` after `handle_agent_specific_request` has overwritten
   * `agent_id` with the path's agent ID in every truthy JSON part of the
   * first message, when that message is the user's; None where Python raises.
   */
  function Override(params: Json, agentId: string): (r: Option<Json>)
    ensures r.Some? ==> r.value.Obj?
  {
    if !params.Obj? then None
    else
      var task := Field(params, "task", Obj([]));
      if !task.Obj? then None
      else
        var messages := Field(task, "messages", Arr([]));
        if !Truthy(messages) then Some(params)
        else if !messages.Arr? then None
        else
          var userMessage := messages.items[0];
          if !userMessage.Obj? then None
          else if !(Field(userMessage, "role", Null) == Str("user") && Truthy(Field(userMessage, "parts", Null))) then Some(params)
          else
            var parts := Field(userMessage, "parts", Null);
            if !parts.Arr? then None
            else
              match OverrideParts(parts.items, agentId)
              case None => None
              case Some(ps) => Some(Rebuilt(params, task, messages.items, userMessage, ps))
  }

  /** `params` with the first message's parts replaced. */
  function Rebuilt(params: Json, task: Json, messages: seq<Json>, userMessage: Json, parts: seq<Json>): Json
    requires params.Obj? && task.Obj? && |messages| > 0 && userMessage.Obj?
  {
    var userMessage' := Obj(Assign(userMessage.fields, "parts", Arr(parts)));
    var task' := Obj(Assign(task.fields, "messages", Arr([userMessage'] + messages[1..])));
    Obj(Assign(params.fields, "task", task'))
  }

  /** A part loop that raises on a prefix raises. */
  lemma {:induction false} OverridePartsFail(parts: seq<Json>, agentId: string, j: nat)
    requires j < |parts| && OverridePart(parts[j], agentId).None?
    ensures OverrideParts(parts, agentId).None?
  {
  }

  /** The override loop of `handle_agent_specific_request`. */
  method OverrideAgentIds(params: Json, agentId: string) returns (r: Option<Json>)
    ensures r == Override(params, agentId)
  {
    if !params.Obj? {
      return None;
    }
    var task := Field(params, "task", Obj([]));
    if !task.Obj? {
      return None;
    }
    var messages := Field(task, "messages", Arr([]));
    if !Truthy(messages) {
      return Some(params);
    }
    if !messages.Arr? {
      return None;
    }
    var userMessage := messages.items[0];
    if !userMessage.Obj? {
      return None;
    }
    if !(Field(userMessage, "role", Null) == Str("user") && Truthy(Field(userMessage, "parts", Null))) {
      return Some(params);
    }
    var parts := Field(userMessage, "parts", Null);
    if !parts.Arr? {
      return None;
    }
    var newParts: seq<Json> := [];
    for j := 0 to |parts.items|
      invariant OverrideParts(parts.items[..j], agentId) == Some(newParts)
    {
      assert parts.items[..j + 1][..j] == parts.items[..j];
      var part := parts.items[j];
      if !part.Obj? {
        OverridePartsFail(parts.items, agentId, j);
        return None;
      }
      var jsonPart := Field(part, "json", Null);
      if Truthy(jsonPart) {
        if !jsonPart.Obj? {
          OverridePartsFail(parts.items, agentId, j);
          return None;
        }
        part := Obj(Assign(part.fields, "json", Obj(Assign(jsonPart.fields, "agent_id", Str(agentId)))));
      }
      newParts := newParts + [part];
    }
    assert parts.items[..|parts.items|] == parts.items;
    return Some(Rebuilt(params, task, messages.items, userMessage, newParts));
  }

  /** How `handle_send_task` ends: a response payload, a `ValueError` with its message, or another exception. */
  datatype Outcome = Done(body: Json) | Invalid(message: string) | Internal

  const MissingTask: string := "Missing 'task' in params for tasks/send"
  const BadTask: string := "Invalid or missing fields in task object"
  const BadUserMessage: string := "Invalid initial user message format"
  const MissingDetails: string := "Missing JSON part with task details in user message"

  /**
   * The first part whose `json` is not None: None where a part scanned is not
   * a dict, `Some(None)` when no part has one.
   */
  function FirstJsonPart(parts: seq<Json>): (r: Option<Option<Json>>)
    ensures r == Some(None) <==> forall i | 0 <= i < |parts| :: parts[i].Obj? && Field(parts[i], "json", Null) == Null
    ensures r.Some? && r.value.Some? ==> r.value.value != Null && exists i | 0 <= i < |parts| ::
      Field(parts[i], "json", Null) == r.value.value &&
      forall i' | 0 <= i' < i :: parts[i'].Obj? && Field(parts[i'], "json", Null) == Null
    ensures r.None? <==> exists i | 0 <= i < |parts| ::
      !parts[i].Obj? && forall i' | 0 <= i' < i :: Field(parts[i'], "json", Null) == Null
  {
    if |parts| == 0 then Some(None)
    else if !parts[0].Obj? then None
    else
      var j := Field(parts[0], "json", Null);
      if j != Null then Some(Some(j))
      else
        var r := FirstJsonPart(parts[1..]);
        assert forall i | 1 <= i < |parts| :: parts[i] == parts[1..][i - 1];
        r
  }

  /** `params["task"]`, where present. */
  function TaskOf(params: Json): Json {
    Field(params, "task", Null)
  }

  /** The task names a truthy `task_id` and a non-empty list of messages. */
  predicate TaskFieldsOk(task: Json) {
    Truthy(Field(task, "task_id", Null)) && Field(task, "messages", Null).Arr? && |Field(task, "messages", Null).items| > 0
  }

  function FirstMessage(task: Json): Json
    requires TaskFieldsOk(task)
  {
    Field(task, "messages", Null).items[0]
  }

  /** The first message is the user's, with a non-empty list of parts. */
  predicate UserMessageOk(message: Json) {
    Field(message, "role", Null) == Str("user") && Field(message, "parts", Null).Arr? && |Field(message, "parts", Null).items| > 0
  }

  function PartsOf(message: Json): seq<Json>
    requires UserMessageOk(message)
  {
    Field(message, "parts", Null).items
  }

  /** The task details `handle_send_task` reads: the first non-None `json` part of the first message, when it is the user's. */
  function DetailsOf(params: Json): Option<Json> {
    var task := TaskOf(params);
    if !TaskFieldsOk(task) || !UserMessageOk(FirstMessage(task)) then None
    else
      match FirstJsonPart(PartsOf(FirstMessage(task)))
      case Some(Some(d)) => Some(d)
      case _ => None
  }

  /** What `handle_send_task` has read once its checks pass: the task's ID, messages and context, and the task details. */
  datatype Checked = Checked(taskId: Json, messages: seq<Json>, taskContext: Json, details: seq<(string, Json)>)

  /** The last check: the first part whose `json` is not None must hold a truthy dict. */
  function CheckDetails(task: Json, parts: seq<Json>): (r: Result<Checked, Outcome>)
    requires task.Obj? && TaskFieldsOk(task)
    ensures FirstJsonPart(parts) == Some(None) ==> r == Err(Invalid(MissingDetails))
    ensures FirstJsonPart(parts).Some? && FirstJsonPart(parts).value.Some? && !Truthy(FirstJsonPart(parts).value.value) ==>
      r == Err(Invalid(MissingDetails))
    ensures FirstJsonPart(parts).None? ==> r == Err(Internal)
    ensures FirstJsonPart(parts).Some? && FirstJsonPart(parts).value.Some? && Truthy(FirstJsonPart(parts).value.value) ==>
      (r.Ok? <==> FirstJsonPart(parts).value.value.Obj?) && (r.Err? ==> r == Err(Internal))
    ensures r.Ok? ==> (FirstJsonPart(parts) == Some(Some(Obj(r.value.details))) && r.value.details != [] &&
      r.value == Checked(Field(task, "task_id", Null), Field(task, "messages", Null).items, Field(task, "context", Null), r.value.details))
  {
    match FirstJsonPart(parts)
    case None => Err(Internal)
    case Some(details) =>
      if details.None? || !Truthy(details.value) then Err(Invalid(MissingDetails))
      else if !details.value.Obj? then Err(Internal)
      else Ok(Checked(Field(task, "task_id", Null), Field(task, "messages", Null).items, Field(task, "context", Null), details.value.fields))
  }

  /** The checks on the task object: its fields, then its first message. */
  function CheckTaskObject(task: Json): (r: Result<Checked, Outcome>)
    ensures task.Obj? && !TaskFieldsOk(task) ==> r == Err(Invalid(BadTask))
    ensures task.Obj? && TaskFieldsOk(task) && FirstMessage(task).Obj? && !UserMessageOk(FirstMessage(task)) ==>
      r == Err(Invalid(BadUserMessage))
    ensures !task.Obj? ==> r == Err(Internal)
    ensures task.Obj? && TaskFieldsOk(task) && !FirstMessage(task).Obj? ==> r == Err(Internal)
    ensures task.Obj? && TaskFieldsOk(task) && UserMessageOk(FirstMessage(task)) ==>
      r == CheckDetails(task, PartsOf(FirstMessage(task)))
    ensures r.Ok? ==> task.Obj? && TaskFieldsOk(task) && UserMessageOk(FirstMessage(task))
  {
    if !task.Obj? then Err(Internal)
    else if !TaskFieldsOk(task) then Err(Invalid(BadTask))
    else
      var userMessage := FirstMessage(task);
      if !userMessage.Obj? then Err(Internal)
      else if !UserMessageOk(userMessage) then Err(Invalid(BadUserMessage))
      else CheckDetails(task, PartsOf(userMessage))
  }

  /**
   * The checks of `handle_send_task`, in order, each raising its
   * `ValueError`; once all pass, the task details are the first user
   * message's first non-None `json`, a non-empty dict.
   */
  function CheckTask(params: Json): (r: Result<Checked, Outcome>)
    ensures !HasKey(params, "task") ==> r == Err(Invalid(MissingTask))
    ensures HasKey(params, "task") ==> r == CheckTaskObject(TaskOf(params))
  {
    if !HasKey(params, "task") then Err(Invalid(MissingTask)) else CheckTaskObject(TaskOf(params))
  }

  /** Once the checks pass, the details read are those `DetailsOf` names. */
  lemma CheckedDetails(params: Json)
    requires CheckTask(params).Ok?
    ensures DetailsOf(params) == Some(Obj(CheckTask(params).value.details)) && Truthy(DetailsOf(params).value)
    ensures CheckTask(params).value.messages == Field(TaskOf(params), "messages", Null).items
  {
  }

  /**
   * `get_agent(agent_id, skill_id)` on JSON keys: a string key is looked up;
   * any other hashable key is absent; a list or dict key raises (unhashable),
   * the skill key only when the agent ID is present.
   */
  function GetAgentJson(t: AgentRegistry.Table, agentId: Json, skillId: Json): (r: Option<Option<AgentRegistry.AgentClass>>)
    ensures r.Some? && r.value.Some? ==> agentId.Str? && skillId.Str? && AgentRegistry.Lookup(t, agentId.s, skillId.s) == r.value
    ensures agentId.Str? && skillId.Str? ==> r == Some(AgentRegistry.Lookup(t, agentId.s, skillId.s))
  {
    match agentId
    case Arr(_) => None
    case Obj(_) => None
    case Str(a) =>
      if a !in t then Some(None)
      else (
        match skillId
        case Arr(_) => None
        case Obj(_) => None
        case Str(s) => Some(AgentRegistry.Lookup(t, a, s))
        case _ => Some(None))
    case _ => Some(None)
  }

  /** `perform_default_analysis`: the fallback result when no agent is registered; `now` is the timestamp. */
  function DefaultAnalysis(agentId: Json, skillId: Json, parameters: Json, now: string): (r: Json)
    ensures Field(r, "status", Null) == Str("warning") && Field(r, "agent_id", Null) == agentId && Field(r, "skill_id", Null) == skillId
  {
    var fields := [
      ("status", Str("warning")),
      ("message", Str("No specific agent implementation found for agent_id '" + PyStr(agentId) + "', skill_id '" + PyStr(skillId) + "'")),
      ("timestamp", Str(now)),
      ("agent_id", agentId),
      ("skill_id", skillId),
      ("parameters_received", parameters)
    ];
    assert Lookup(fields, "agent_id") == Some(agentId) by { LookupAt(fields, 3); }
    assert Lookup(fields, "skill_id") == Some(skillId) by { LookupAt(fields, 4); }
    Obj(fields)
  }

  /** The agent's reply message carrying the analysis results. */
  function AgentMessage(results: Json): Json {
    Obj([("role", Str("agent")), ("parts", Arr([Obj([("text", Str("Analysis completed.")), ("json", results)])]))])
  }

  /** The task of a `tasks/send` response: state `completed`, the original messages followed by the agent's one message. */
  function TaskObject(taskId: Json, messages: seq<Json>, results: Json, taskContext: Json): (r: Json)
    ensures Field(r, "task_id", Null) == taskId && Field(Field(r, "status", Null), "state", Null) == Str("completed")
    ensures Field(r, "messages", Null) == Arr(messages + [AgentMessage(results)]) && Field(r, "context", Null) == taskContext
  {
    var fields := [
      ("task_id", taskId),
      ("status", Obj([("state", Str("completed"))])),
      ("messages", Arr(messages + [AgentMessage(results)])),
      ("context", taskContext)
    ];
    assert Lookup(fields, "status") == Some(fields[1].1) by { LookupAt(fields, 1); }
    assert Lookup(fields[1].1.fields, "state") == Some(Str("completed")) by { LookupAt(fields[1].1.fields, 0); }
    assert Lookup(fields, "messages") == Some(fields[2].1) by { LookupAt(fields, 2); }
    assert Lookup(fields, "context") == Some(taskContext) by { LookupAt(fields, 3); }
    Obj(fields)
  }

  /** The JSON-RPC response around a task: version 2.0, the request's ID. */
  function Reply(requestId: Json, task: Json): (r: Json)
    ensures Field(r, "jsonrpc", Null) == Str("2.0") && Field(r, "id", Null) == requestId
    ensures Field(Field(r, "result", Null), "task", Null) == task && ErrorCode(r).None?
  {
    var fields := [("jsonrpc", Str("2.0")), ("result", Obj([("task", task)])), ("id", requestId)];
    assert Lookup(fields, "id") == Some(requestId) by { LookupAt(fields, 2); }
    assert Lookup(fields, "result") == Some(Obj([("task", task)])) by { LookupAt(fields, 1); }
    assert Lookup(fields, "error").None? by { LookupAbsent(fields, "error"); }
    Obj(fields)
  }

  /**
   * The rest of `handle_send_task`: the registered agent's result when
   * `get_agent` finds one, else the fallback's, in the completed task.
   * `analysis` is what the registered agent's `analyze` returns and `now` the
   * fallback's timestamp.
   */
  function Dispatch(c: Checked, requestId: Json, t: AgentRegistry.Table, analysis: Json, now: string): (r: Outcome)
    ensures r.Done? || r.Internal?
    ensures var d := Obj(c.details);
      var found := GetAgentJson(t, Field(d, "agent_id", Null), Field(d, "skill_id", Str(AgentRegistry.DefaultSkill)));
      r.Done? <==> found.Some?
    ensures r.Done? ==> (exists results :: r.body == Reply(requestId, TaskObject(c.taskId, c.messages, results, c.taskContext)))
  {
    var d := Obj(c.details);
    var agentId := Field(d, "agent_id", Null);
    var skillId := Field(d, "skill_id", Str(AgentRegistry.DefaultSkill));
    match GetAgentJson(t, agentId, skillId)
    case None => Internal
    case Some(found) =>
      var results := if found.Some? then analysis else DefaultAnalysis(agentId, skillId, Field(d, "parameters", Obj([])), now);
      Done(Reply(requestId, TaskObject(c.taskId, c.messages, results, c.taskContext)))
  }

  /** With a registered class the agent's own result is returned; otherwise the fallback's, with status `warning`. */
  lemma RegisteredOrFallback(c: Checked, requestId: Json, t: AgentRegistry.Table, analysis: Json, now: string, agentId: string, skillId: string)
    requires Field(Obj(c.details), "agent_id", Null) == Str(agentId)
    requires Field(Obj(c.details), "skill_id", Str(AgentRegistry.DefaultSkill)) == Str(skillId)
    ensures var results := if AgentRegistry.Lookup(t, agentId, skillId).Some? then analysis
        else DefaultAnalysis(Str(agentId), Str(skillId), Field(Obj(c.details), "parameters", Obj([])), now);
      Dispatch(c, requestId, t, analysis, now) == Done(Reply(requestId, TaskObject(c.taskId, c.messages, results, c.taskContext)))
    ensures AgentRegistry.Lookup(t, agentId, skillId).None? ==>
      Field(Dispatch(c, requestId, t, analysis, now).body, "id", Null) == requestId
  {
  }

  /** `handle_send_task(params, request_id)`. */
  function SendTask(params: Json, requestId: Json, t: AgentRegistry.Table, analysis: Json, now: string): Outcome {
    match CheckTask(params)
    case Err(o) => o
    case Ok(c) => Dispatch(c, requestId, t, analysis, now)
  }

  /** The message of the internal-error response; Python appends the exception's text. */
  const InternalMessage: string := "Internal error: "

  /** The response to the outcome of `handle_send_task`. */
  function TaskResponse(o: Outcome, requestId: Json): Response {
    match o
    case Done(body) => Response(200, body)
    case Invalid(m) => Response(400, ErrorBody(InvalidRequest, "Invalid Request: " + m, requestId))
    case Internal => Response(500, ErrorBody(InternalError, InternalMessage, requestId))
  }

  /** A `tasks/send` request, once its parameters have been through the override loop. */
  function SendResponse(params: Option<Json>, requestId: Json, t: AgentRegistry.Table, analysis: Json, now: string): Response {
    match params
    case None => Response(500, ErrorBody(InternalError, InternalMessage, requestId))
    case Some(ps) => TaskResponse(SendTask(ps, requestId, t, analysis, now), requestId)
  }

  /** The checks on the JSON-RPC envelope, then the method's dispatch. */
  function HandlePayload(agentId: string, p: Json, t: AgentRegistry.Table, analysis: Json, now: string): Response {
    if !p.Obj? then Response(500, ErrorBody(InternalError, InternalMessage, Null))
    else
      var requestId := Field(p, "id", Null);
      var rpcMethod := Field(p, "method", Null);
      if Field(p, "jsonrpc", Null) != Str("2.0") then
        Response(400, ErrorBody(InvalidRequest, "Invalid Request: Invalid JSON-RPC version", requestId))
      else if !Truthy(rpcMethod) then
        Response(400, ErrorBody(InvalidRequest, "Invalid Request: Method field is missing", requestId))
      else if rpcMethod != Str("tasks/send") then
        Response(200, ErrorBody(MethodNotFound, "Method not found: " + PyStr(rpcMethod), requestId))
      else SendResponse(Override(Field(p, "params", Null), agentId), requestId, t, analysis, now)
  }

  /** `handle_agent_specific_request(agent_id, request)`; `payload` is None when the body is not JSON. */
  function Handle(agentId: string, payload: Option<Json>, t: AgentRegistry.Table, analysis: Json, now: string): Response {
    if EndsWith(agentId, ComingSoonSuffix) then
      Response(503, ErrorBody(ComingSoon, "Agent " + agentId + " is coming soon and not yet implemented", Null))
    else if payload.None? then Response(400, ErrorBody(ParseError, "Parse error", Null))
    else HandlePayload(agentId, payload.value, t, analysis, now)
  }

  /**
   * What `request.json()` makes of the request body: a JSON value, text that
   * is not JSON (`JSONDecodeError`), or bytes that are not UTF-8
   * (`UnicodeDecodeError`, a `ValueError` but not a `JSONDecodeError`).
   */
  datatype RequestBody = Decoded(payload: Json) | NotJson | NotUtf8

  /** The payload of a body; an undecodable body of either kind has none. */
  function PayloadOf(body: RequestBody): Option<Json> {
    if body.Decoded? then Some(body.payload) else None
  }

  /** The plain-text answer of the web framework to an exception the handler lets escape. */
  const ServerErrorText: string := "Internal Server Error"

  /**
   * The handler as written: a body that is not UTF-8 reaches the `ValueError`
   * handler, which reads the still unbound `payload`; the `UnboundLocalError`
   * escapes and the framework answers a plain-text 500.
   */
  function HandleBodyAsWritten(agentId: string, body: RequestBody, t: AgentRegistry.Table, analysis: Json, now: string): Response {
    if !EndsWith(agentId, ComingSoonSuffix) && body.NotUtf8? then Response(500, Str(ServerErrorText))
    else Handle(agentId, PayloadOf(body), t, analysis, now)
  }

  /** The handler as intended: every body that cannot be decoded is a JSON-RPC parse error. */
  function HandleBody(agentId: string, body: RequestBody, t: AgentRegistry.Table, analysis: Json, now: string): Response {
    Handle(agentId, PayloadOf(body), t, analysis, now)
  }

  /** As written, a body of the single byte 0xFF gets a 500 that is no JSON-RPC response at all. */
  lemma NotUtf8AsWritten(agentId: string, t: AgentRegistry.Table, analysis: Json, now: string)
    requires !EndsWith(agentId, ComingSoonSuffix)
    ensures HandleBodyAsWritten(agentId, NotUtf8, t, analysis, now).status == 500
    ensures ErrorCode(HandleBodyAsWritten(agentId, NotUtf8, t, analysis, now).body).None?
    ensures Field(HandleBodyAsWritten(agentId, NotUtf8, t, analysis, now).body, "jsonrpc", Null) == Null
  {
  }

  /** As intended, a body that is not UTF-8 is answered like one that is not JSON: 400 with -32700 and a null ID. */
  lemma {:induction false} NotUtf8ParseError(agentId: string, t: AgentRegistry.Table, analysis: Json, now: string)
    requires !EndsWith(agentId, ComingSoonSuffix)
    ensures HandleBody(agentId, NotUtf8, t, analysis, now) == HandleBody(agentId, NotJson, t, analysis, now)
    ensures HandleBody(agentId, NotUtf8, t, analysis, now).status == 400
    ensures ErrorCode(HandleBody(agentId, NotUtf8, t, analysis, now).body) == Some(ParseError)
    ensures Field(HandleBody(agentId, NotUtf8, t, analysis, now).body, "id", Null) == Null
  {
    ErrorBodyReads(ParseError, "Parse error", Null);
  }

  /** The two handlers differ only on bodies that are not UTF-8. */
  lemma AsWrittenAgrees(agentId: string, body: RequestBody, t: AgentRegistry.Table, analysis: Json, now: string)
    requires !body.NotUtf8? || EndsWith(agentId, ComingSoonSuffix)
    ensures HandleBodyAsWritten(agentId, body, t, analysis, now) == HandleBody(agentId, body, t, analysis, now)
  {
  }

  /** The endpoint's handler, with the override loop run in place. */
  method HandleAgentSpecificRequest(agentId: string, body: RequestBody, registry: AgentRegistry.Registry, analysis: Json, now: string)
    returns (response: Response)
    ensures response == HandleBody(agentId, body, registry.agents, analysis, now)
  {
    if EndsWith(agentId, ComingSoonSuffix) {
      return Response(503, ErrorBody(ComingSoon, "Agent " + agentId + " is coming soon and not yet implemented", Null));
    }
    if !body.Decoded? {
      return Response(400, ErrorBody(ParseError, "Parse error", Null));
    }
    var p := body.payload;
    if !p.Obj? {
      return Response(500, ErrorBody(InternalError, InternalMessage, Null));
    }
    if Field(p, "jsonrpc", Null) != Str("2.0") {
      return Response(400, ErrorBody(InvalidRequest, "Invalid Request: Invalid JSON-RPC version", Field(p, "id", Null)));
    }
    var rpcMethod := Field(p, "method", Null);
    var requestId := Field(p, "id", Null);
    if !Truthy(rpcMethod) {
      return Response(400, ErrorBody(InvalidRequest, "Invalid Request: Method field is missing", requestId));
    }
    if rpcMethod != Str("tasks/send") {
      return Response(200, ErrorBody(MethodNotFound, "Method not found: " + PyStr(rpcMethod), requestId));
    }
    var params := OverrideAgentIds(Field(p, "params", Null), agentId);
    response := SendResponse(params, requestId, registry.agents, analysis, now);
  }

  /** The error responses: their JSON-RPC code and ID. */
  lemma {:induction false} ErrorBodyReads(code: int, message: string, id: Json)
    ensures ErrorCode(ErrorBody(code, message, id)) == Some(code) && Field(ErrorBody(code, message, id), "id", Null) == id
  {
    var fields := [("jsonrpc", Str("2.0")), ("error", Obj([("code", Num(code)), ("message", Str(message))])), ("id", id)];
    LookupAt(fields, 1);
    LookupAt(fields, 2);
  }

  /** A coming-soon agent ID is answered with -32001 and a null ID, whatever the payload. */
  lemma ComingSoonFirst(agentId: string, p1: Option<Json>, p2: Option<Json>, t: AgentRegistry.Table, analysis: Json, now: string)
    requires EndsWith(agentId, ComingSoonSuffix)
    ensures Handle(agentId, p1, t, analysis, now) == Handle(agentId, p2, t, analysis, now)
    ensures Handle(agentId, p1, t, analysis, now).status == 503
    ensures ErrorCode(Handle(agentId, p1, t, analysis, now).body) == Some(ComingSoon)
    ensures Field(Handle(agentId, p1, t, analysis, now).body, "id", Null) == Null
  {
    ErrorBodyReads(ComingSoon, "Agent " + agentId + " is coming soon and not yet implemented", Null);
  }

  /** An unknown method is answered with -32601, echoing the request's ID. */
  lemma UnknownMethod(agentId: string, p: Json, t: AgentRegistry.Table, analysis: Json, now: string)
    requires !EndsWith(agentId, ComingSoonSuffix) && p.Obj? && Field(p, "jsonrpc", Null) == Str("2.0")
    requires Truthy(Field(p, "method", Null)) && Field(p, "method", Null) != Str("tasks/send")
    ensures ErrorCode(Handle(agentId, Some(p), t, analysis, now).body) == Some(MethodNotFound)
    ensures Field(Handle(agentId, Some(p), t, analysis, now).body, "id", Null) == Field(p, "id", Null)
  {
    ErrorBodyReads(MethodNotFound, "Method not found: " + PyStr(Field(p, "method", Null)), Field(p, "id", Null));
  }

  /**
   * Every response is a completed task for the request's ID, with status
   * 200, or an error with one of the five codes, each with its status.
   */
  lemma {:induction false} ResponseKinds(agentId: string, payload: Option<Json>, t: AgentRegistry.Table, analysis: Json, now: string)
    ensures var r := Handle(agentId, payload, t, analysis, now);
      (r.status == 200 && ErrorCode(r.body).None? && payload.Some? && Field(r.body, "id", Null) == Field(payload.value, "id", Null) &&
       Field(Field(r.body, "result", Null), "task", Null).Obj?) ||
      (r.status == 503 && ErrorCode(r.body) == Some(ComingSoon)) ||
      (r.status == 400 && ErrorCode(r.body) == Some(ParseError)) ||
      (r.status == 400 && ErrorCode(r.body) == Some(InvalidRequest)) ||
      (r.status == 200 && ErrorCode(r.body) == Some(MethodNotFound)) ||
      (r.status == 500 && ErrorCode(r.body) == Some(InternalError))
  {
    if EndsWith(agentId, ComingSoonSuffix) {
      ErrorBodyReads(ComingSoon, "Agent " + agentId + " is coming soon and not yet implemented", Null);
    } else if payload.None? {
      ErrorBodyReads(ParseError, "Parse error", Null);
    } else {
      PayloadKinds(agentId, payload.value, t, analysis, now);
    }
  }

  /** `ResponseKinds` for a payload that parsed. */
  lemma PayloadKinds(agentId: string, p: Json, t: AgentRegistry.Table, analysis: Json, now: string)
    ensures var r := HandlePayload(agentId, p, t, analysis, now);
      (r.status == 200 && ErrorCode(r.body).None? && Field(r.body, "id", Null) == Field(p, "id", Null) &&
       Field(Field(r.body, "result", Null), "task", Null).Obj?) ||
      (r.status == 400 && ErrorCode(r.body) == Some(InvalidRequest)) ||
      (r.status == 200 && ErrorCode(r.body) == Some(MethodNotFound)) ||
      (r.status == 500 && ErrorCode(r.body) == Some(InternalError))
  {
    var r := HandlePayload(agentId, p, t, analysis, now);
    var requestId := Field(p, "id", Null);
    var rpcMethod := Field(p, "method", Null);
    if !p.Obj? {
      assert r == Response(500, ErrorBody(InternalError, InternalMessage, Null));
      ErrorBodyReads(InternalError, InternalMessage, Null);
    } else if Field(p, "jsonrpc", Null) != Str("2.0") {
      assert r == Response(400, ErrorBody(InvalidRequest, "Invalid Request: Invalid JSON-RPC version", requestId));
      ErrorBodyReads(InvalidRequest, "Invalid Request: Invalid JSON-RPC version", requestId);
    } else if !Truthy(rpcMethod) {
      assert r == Response(400, ErrorBody(InvalidRequest, "Invalid Request: Method field is missing", requestId));
      ErrorBodyReads(InvalidRequest, "Invalid Request: Method field is missing", requestId);
    } else if rpcMethod != Str("tasks/send") {
      assert r == Response(200, ErrorBody(MethodNotFound, "Method not found: " + PyStr(rpcMethod), requestId));
      ErrorBodyReads(MethodNotFound, "Method not found: " + PyStr(rpcMethod), requestId);
    } else {
      assert r == SendResponse(Override(Field(p, "params", Null), agentId), requestId, t, analysis, now);
      SendKinds(Override(Field(p, "params", Null), agentId), requestId, t, analysis, now);
    }
  }

  /** `ResponseKinds` for a `tasks/send` request. */
  lemma SendKinds(params: Option<Json>, requestId: Json, t: AgentRegistry.Table, analysis: Json, now: string)
    ensures var r := SendResponse(params, requestId, t, analysis, now);
      (r.status == 200 && ErrorCode(r.body).None? && Field(r.body, "id", Null) == requestId &&
       Field(Field(r.body, "result", Null), "task", Null).Obj?) ||
      (r.status == 400 && ErrorCode(r.body) == Some(InvalidRequest)) ||
      (r.status == 500 && ErrorCode(r.body) == Some(InternalError))
  {
    if params.None? {
      ErrorBodyReads(InternalError, InternalMessage, requestId);
    } else {
      var o := SendTask(params.value, requestId, t, analysis, now);
      if o.Done? {
        DoneReply(params.value, requestId, t, analysis, now);
      }
      TaskResponseKinds(o, requestId);
    }
  }

  /** A completed `handle_send_task` answers with a task for the request's ID. */
  lemma DoneReply(params: Json, requestId: Json, t: AgentRegistry.Table, analysis: Json, now: string)
    requires SendTask(params, requestId, t, analysis, now).Done?
    ensures var body := SendTask(params, requestId, t, analysis, now).body;
      ErrorCode(body).None? && Field(body, "id", Null) == requestId && Field(Field(body, "result", Null), "task", Null).Obj?
  {
    var c := CheckTask(params).value;
    var body := SendTask(params, requestId, t, analysis, now).body;
    var results :| body == Reply(requestId, TaskObject(c.taskId, c.messages, results, c.taskContext));
  }

  /** The response to each outcome of `handle_send_task`. */
  lemma TaskResponseKinds(o: Outcome, requestId: Json)
    requires o.Done? ==>
      ErrorCode(o.body).None? && Field(o.body, "id", Null) == requestId && Field(Field(o.body, "result", Null), "task", Null).Obj?
    ensures var r := TaskResponse(o, requestId);
      (r.status == 200 && ErrorCode(r.body).None? && Field(r.body, "id", Null) == requestId &&
       Field(Field(r.body, "result", Null), "task", Null).Obj?) ||
      (r.status == 400 && ErrorCode(r.body) == Some(InvalidRequest)) ||
      (r.status == 500 && ErrorCode(r.body) == Some(InternalError))
  {
    match o
    case Done(_) =>
    case Invalid(m) => ErrorBodyReads(InvalidRequest, "Invalid Request: " + m, requestId);
    case Internal => ErrorBodyReads(InternalError, InternalMessage, requestId);
  }

  /** After the override, the first non-None `json` part, when truthy, carries the path's agent ID. */
  lemma {:induction false} FirstJsonOverridden(parts: seq<Json>, ps: seq<Json>, agentId: string)
    requires |ps| == |parts| && forall k | 0 <= k < |parts| :: OverridePart(parts[k], agentId) == Some(ps[k])
    ensures FirstJsonPart(ps).Some? && FirstJsonPart(ps).value.Some? && Truthy(FirstJsonPart(ps).value.value) ==>
      FirstJsonPart(ps).value.value.Obj? && Get(FirstJsonPart(ps).value.value, "agent_id") == Some(Str(agentId))
  {
    if |ps| > 0 && Field(ps[0], "json", Null) == Null {
      assert OverridePart(parts[0], agentId) == Some(ps[0]);
      FirstJsonOverridden(parts[1..], ps[1..], agentId);
      assert forall k | 0 <= k < |parts| - 1 :: parts[1..][k] == parts[k + 1] && ps[1..][k] == ps[k + 1];
    } else if |ps| > 0 {
      assert OverridePart(parts[0], agentId) == Some(ps[0]);
    }
  }

  /**
   * The task details `handle_send_task` dispatches on carry the path's agent
   * ID: the override reaches exactly the part the details are read from.
   */
  lemma PathAgentDispatched(params: Json, agentId: string)
    requires Override(params, agentId).Some? && CheckTask(Override(params, agentId).value).Ok?
    ensures Field(Obj(CheckTask(Override(params, agentId).value).value.details), "agent_id", Null) == Str(agentId)
  {
    var p' := Override(params, agentId).value;
    CheckedDetails(p');
    var task := Field(params, "task", Obj([]));
    var messages := Field(task, "messages", Arr([]));
    var userMessage := messages.items[0];
    var parts := Field(userMessage, "parts", Null);
    if Truthy(messages) && messages.Arr? && Field(userMessage, "role", Null) == Str("user") && Truthy(parts) && parts.Arr? {
      var ps := OverrideParts(parts.items, agentId).value;
      var userMessage' := Obj(Assign(userMessage.fields, "parts", Arr(ps)));
      var task' := Obj(Assign(task.fields, "messages", Arr([userMessage'] + messages.items[1..])));
      assert p' == Obj(Assign(params.fields, "task", task'));
      assert TaskOf(p') == task';
      assert FirstMessage(task') == userMessage';
      assert PartsOf(userMessage') == ps;
      FirstJsonOverridden(parts.items, ps, agentId);
    }
  }
}
