/** The in-memory store behind every route (server/storage.ts, `MemStorage`):
    chat sessions, their append-only message lists, and model configurations
    of which at most one is active. The store is an immutable value and every
    mutating method of the class is a function from the old store to the new
    one. The wall clock is an argument `now`. */
module Storage {
  import opened Wrappers

  type SessionId = string

  /** A clock reading, in milliseconds. */
  type Time = nat

  datatype Role = User | Assistant

  datatype Message = Message(id: nat, sessionId: SessionId, content: string, role: Role, timestamp: Time)

  datatype ChatSession = ChatSession(id: SessionId, title: string, createdAt: Time, updatedAt: Time)

  /** The free-form `parameters` JSON object of a model configuration; the
      store never looks inside it. */
  type Parameters = map<string, string>

  datatype ModelConfig = ModelConfig(
    id: int,
    modelName: string,
    baseModel: string,
    fineTuningMethod: string,
    deploymentPlatform: string,
    parameters: Parameters,
    isActive: bool,
    createdAt: Time)

  /** The fields a caller supplies when creating a configuration. */
  datatype NewModelConfig = NewModelConfig(
    modelName: string,
    baseModel: string,
    fineTuningMethod: string,
    deploymentPlatform: string,
    parameters: Parameters,
    isActive: Option<bool>)

  /** A partial update: only the fields that are present are written. */
  datatype ConfigPatch = ConfigPatch(
    modelName: Option<string>,
    baseModel: Option<string>,
    fineTuningMethod: Option<string>,
    deploymentPlatform: Option<string>,
    parameters: Option<Parameters>,
    isActive: Option<bool>)

  datatype Store = Store(
    sessions: map<SessionId, ChatSession>,
    messages: map<SessionId, seq<Message>>,
    messageIdCounter: nat,
    modelConfigs: map<int, ModelConfig>,
    modelConfigIdCounter: nat)

  /** A new store together with what the operation returned to its caller. */
  datatype Updated<+T> = Updated(store: Store, value: T)

  // ---------------------------------------------------------------------------
  // Invariants of every reachable store
  // ---------------------------------------------------------------------------

  /** Message ids lie below the counter, every list holds only its own
      session's messages, and each list is in strictly increasing id order. */
  ghost predicate MessagesWf(st: Store) {
    && 1 <= st.messageIdCounter
    && (forall sid, i :: sid in st.messages && 0 <= i < |st.messages[sid]| ==>
          st.messages[sid][i].sessionId == sid && st.messages[sid][i].id < st.messageIdCounter)
    && (forall sid, i, j :: sid in st.messages && 0 <= i < j < |st.messages[sid]| ==>
          st.messages[sid][i].id < st.messages[sid][j].id)
  }

  /** Every session record is stored under its own id. */
  ghost predicate SessionsWf(st: Store) {
    forall sid :: sid in st.sessions ==> st.sessions[sid].id == sid
  }

  /** At most one configuration is active. */
  ghost predicate AtMostOneActive(configs: map<int, ModelConfig>) {
    forall a, b :: a in configs && b in configs && configs[a].isActive && configs[b].isActive ==> a == b
  }

  /** Every configuration is stored under its own id, ids were handed out by
      the counter, and at most one configuration is active. */
  ghost predicate ConfigsWf(st: Store) {
    && 1 <= st.modelConfigIdCounter
    && (forall id :: id in st.modelConfigs ==>
          st.modelConfigs[id].id == id && 1 <= id < st.modelConfigIdCounter)
    && AtMostOneActive(st.modelConfigs)
  }

  ghost predicate Wf(st: Store) {
    MessagesWf(st) && SessionsWf(st) && ConfigsWf(st)
  }

  // ---------------------------------------------------------------------------
  // Construction
  // ---------------------------------------------------------------------------

  /** The store before the constructor seeds its default configurations. */
  function Empty(): (st: Store)
    ensures Wf(st)
  {
    Store(map[], map[], 1, map[], 1)
  }

  function Seed(modelName: string, baseModel: string, active: bool): NewModelConfig {
    NewModelConfig(modelName, baseModel, "qlora", "huggingface",
                   map["temperature" := "0.7", "maxLength" := "512"], Some(active))
  }

  /** One seeding call of the constructor, on a store with no sessions and
      no messages. */
  function SeedStep(st: Store, modelName: string, baseModel: string, active: bool, now: Time): (r: Store)
    requires Wf(st)
    ensures Wf(r)
    ensures r.sessions == st.sessions && r.messages == st.messages && r.messageIdCounter == st.messageIdCounter
    ensures r.modelConfigIdCounter == st.modelConfigIdCounter + 1
    ensures r.modelConfigs.Keys == st.modelConfigs.Keys + {st.modelConfigIdCounter}
    ensures r.modelConfigs[st.modelConfigIdCounter].isActive == active
    ensures !active ==> forall k :: k in st.modelConfigs ==> r.modelConfigs[k].isActive == st.modelConfigs[k].isActive
  {
    CreateModelConfigPreservesInvariants(st, Seed(modelName, baseModel, active), now);
    CreateModelConfig(st, Seed(modelName, baseModel, active), now).store
  }

  /** The constructor: four default configurations, ids 1 to 4, only the first active. */
  function Init(now: Time): (st: Store)
    ensures Wf(st)
    ensures st.sessions == map[] && st.messages == map[] && st.messageIdCounter == 1
    ensures st.modelConfigs.Keys == {1, 2, 3, 4} && st.modelConfigIdCounter == 5
    ensures forall id :: id in st.modelConfigs ==> (st.modelConfigs[id].isActive <==> id == 1)
  {
    var s1 := SeedStep(Empty(), "Code Llama 7B", "codellama", true, now);
    var s2 := SeedStep(s1, "StarCoder 7B", "starcoder", false, now);
    var s3 := SeedStep(s2, "WizardCoder 7B", "wizardcoder", false, now);
    SeedStep(s3, "Mistral 7B", "mistral", false, now)
  }

  // ---------------------------------------------------------------------------
  // Messages
  // ---------------------------------------------------------------------------

  /** `getMessages`: the session's list, or nothing for an id never written to. */
  function GetMessages(st: Store, sid: SessionId): (r: seq<Message>)
    ensures sid in st.messages ==> r == st.messages[sid]
    ensures sid !in st.messages ==> r == []
  {
    if sid in st.messages then st.messages[sid] else []
  }

  /** `createMessage`: takes the next id from the store-wide counter and
      appends the message to its session's list, creating the list if needed.
      It does not create a session record. */
  function CreateMessage(st: Store, sid: SessionId, content: string, role: Role, now: Time): (r: Updated<Message>)
    ensures r.value == Message(st.messageIdCounter, sid, content, role, now)
    ensures r.store.messageIdCounter == st.messageIdCounter + 1
    ensures GetMessages(r.store, sid) == GetMessages(st, sid) + [r.value]
    ensures forall other :: other != sid ==> GetMessages(r.store, other) == GetMessages(st, other)
    ensures r.store.messages.Keys == st.messages.Keys + {sid}
    ensures r.store.sessions == st.sessions
    ensures r.store.modelConfigs == st.modelConfigs && r.store.modelConfigIdCounter == st.modelConfigIdCounter
  {
    var m := Message(st.messageIdCounter, sid, content, role, now);
    var list := if sid in st.messages then st.messages[sid] else [];
    Updated(st.(messages := st.messages[sid := list + [m]], messageIdCounter := st.messageIdCounter + 1), m)
  }

  /** `deleteMessages`: forgets one session's list and nothing else. */
  function DeleteMessages(st: Store, sid: SessionId): (r: Store)
    ensures GetMessages(r, sid) == []
    ensures forall other :: other != sid ==> GetMessages(r, other) == GetMessages(st, other)
    ensures r.sessions == st.sessions
    ensures r.messageIdCounter == st.messageIdCounter
    ensures r.modelConfigs == st.modelConfigs && r.modelConfigIdCounter == st.modelConfigIdCounter
    ensures sid !in st.messages ==> r == st
  {
    st.(messages := st.messages - {sid})
  }

  /** Every message already stored has an id below the one the next
      `createMessage` hands out, in whichever session it lives. */
  lemma NextMessageIdIsFresh(st: Store, sid: SessionId, content: string, role: Role, now: Time)
    requires MessagesWf(st)
    ensures forall other, i :: 0 <= i < |GetMessages(st, other)| ==>
              GetMessages(st, other)[i].id < CreateMessage(st, sid, content, role, now).value.id
  {
  }

  lemma CreateMessagePreservesWf(st: Store, sid: SessionId, content: string, role: Role, now: Time)
    requires Wf(st)
    ensures Wf(CreateMessage(st, sid, content, role, now).store)
  {
  }

  // ---------------------------------------------------------------------------
  // Sessions
  // ---------------------------------------------------------------------------

  /** `getSession`: the record stored under the id, absent when there is none. */
  function GetSession(st: Store, sid: SessionId): (r: Option<ChatSession>)
    ensures r.Some? <==> sid in st.sessions
    ensures r.Some? ==> r.value == st.sessions[sid]
  {
    if sid in st.sessions then Some(st.sessions[sid]) else None
  }

  /** `createSession`: stamps both times with `now`, replacing any record
      already stored under the id. */
  function CreateSession(st: Store, sid: SessionId, title: string, now: Time): (r: Updated<ChatSession>)
    ensures r.value.id == sid && r.value.title == title
    ensures r.value.createdAt == now && r.value.updatedAt == now
    ensures GetSession(r.store, sid) == Some(r.value)
    ensures forall other :: other != sid ==> GetSession(r.store, other) == GetSession(st, other)
    ensures r.store.sessions.Keys == st.sessions.Keys + {sid}
    ensures r.store.messages == st.messages && r.store.messageIdCounter == st.messageIdCounter
    ensures r.store.modelConfigs == st.modelConfigs && r.store.modelConfigIdCounter == st.modelConfigIdCounter
  {
    var s := ChatSession(sid, title, now, now);
    Updated(st.(sessions := st.sessions[sid := s]), s)
  }

  /** `updateSessionTitle`: absent and no change for an unknown id; otherwise
      a new title and `updatedAt`, keeping the id and the creation time. */
  function UpdateSessionTitle(st: Store, sid: SessionId, title: string, now: Time): (r: Updated<Option<ChatSession>>)
    ensures r.value.None? <==> sid !in st.sessions
    ensures r.value.None? ==> r.store == st
    ensures r.value.Some? ==>
              && r.value.value.id == st.sessions[sid].id
              && r.value.value.createdAt == st.sessions[sid].createdAt
              && r.value.value.title == title
              && r.value.value.updatedAt == now
              && GetSession(r.store, sid) == r.value
    ensures forall other :: other != sid ==> GetSession(r.store, other) == GetSession(st, other)
    ensures r.store.sessions.Keys == st.sessions.Keys
    ensures r.store.messages == st.messages && r.store.messageIdCounter == st.messageIdCounter
    ensures r.store.modelConfigs == st.modelConfigs && r.store.modelConfigIdCounter == st.modelConfigIdCounter
  {
    if sid !in st.sessions then Updated(st, None)
    else
      var s := st.sessions[sid].(title := title, updatedAt := now);
      Updated(st.(sessions := st.sessions[sid := s]), Some(s))
  }

  /** `deleteSession`: removes the record and, in cascade, its messages; a
      no-op for an id the store knows nothing about. */
  function DeleteSession(st: Store, sid: SessionId): (r: Store)
    ensures GetSession(r, sid) == None && GetMessages(r, sid) == []
    ensures forall other :: other != sid ==> GetSession(r, other) == GetSession(st, other)
    ensures forall other :: other != sid ==> GetMessages(r, other) == GetMessages(st, other)
    ensures r.messageIdCounter == st.messageIdCounter
    ensures r.modelConfigs == st.modelConfigs && r.modelConfigIdCounter == st.modelConfigIdCounter
    ensures sid !in st.sessions && sid !in st.messages ==> r == st
  {
    DeleteMessages(st.(sessions := st.sessions - {sid}), sid)
  }

  /** Sessions listed most recently updated first. */
  ghost predicate ByRecency(ss: seq<ChatSession>) {
    forall i, j :: 0 <= i < j < |ss| ==> ss[i].updatedAt >= ss[j].updatedAt
  }

  /** Places `s` into a list ordered by recency, ahead of every session
      updated no later than it. */
  function InsertByRecency(ss: seq<ChatSession>, s: ChatSession): (r: seq<ChatSession>)
    requires ByRecency(ss)
    ensures ByRecency(r)
    ensures multiset(r) == multiset(ss) + multiset{s}
  {
    if |ss| == 0 || s.updatedAt >= ss[0].updatedAt then [s] + ss
    else
      var rest := InsertByRecency(ss[1..], s);
      assert ss == [ss[0]] + ss[1..];
      assert forall i :: 0 <= i < |rest| ==> rest[i].updatedAt <= ss[0].updatedAt by {
        forall i | 0 <= i < |rest|
          ensures rest[i].updatedAt <= ss[0].updatedAt
        {
          assert rest[i] in multiset(rest);
          if rest[i] != s {
            assert rest[i] in multiset(ss[1..]);
            var j :| 0 <= j < |ss[1..]| && ss[1..][j] == rest[i];
            assert ss[j + 1] == rest[i];
          }
        }
      }
      [ss[0]] + rest
  }

  /** `getSessions`: every stored session exactly once, most recently
      updated first. */
  method GetSessions(st: Store) returns (r: seq<ChatSession>)
    ensures ByRecency(r)
    ensures multiset(r) == multiset(st.sessions.Values)
  {
    r := [];
    var rest := st.sessions.Values;
    while rest != {}
      invariant ByRecency(r)
      invariant multiset(r) + multiset(rest) == multiset(st.sessions.Values)
      decreases |rest|
    {
      var s :| s in rest;
      r := InsertByRecency(r, s);
      assert multiset(rest) == multiset(rest - {s}) + multiset{s};
      rest := rest - {s};
    }
  }

  /** With every record stored under its own id, the listing holds one entry
      per stored session. */
  lemma SessionListingCoversStore(st: Store, listing: seq<ChatSession>)
    requires SessionsWf(st)
    requires multiset(listing) == multiset(st.sessions.Values)
    ensures |listing| == |st.sessions|
    ensures forall sid :: sid in st.sessions ==> st.sessions[sid] in listing
  {
    assert |listing| == |multiset(st.sessions.Values)|;
    ValuesCountKeys(st);
    forall sid | sid in st.sessions
      ensures st.sessions[sid] in listing
    {
      assert st.sessions[sid] in multiset(st.sessions.Values);
    }
  }

  lemma {:induction false} ValuesCountKeys(st: Store)
    requires SessionsWf(st)
    ensures |st.sessions.Values| == |st.sessions.Keys|
    decreases |st.sessions.Keys|
  {
    if st.sessions != map[] {
      var sid :| sid in st.sessions;
      var smaller := st.(sessions := st.sessions - {sid});
      ValuesCountKeys(smaller);
      forall v | v in st.sessions.Values
        ensures v in smaller.sessions.Values || v == st.sessions[sid]
      {
        var k :| k in st.sessions && st.sessions[k] == v;
        if k != sid {
          assert smaller.sessions[k] == v;
        }
      }
      assert st.sessions.Values == smaller.sessions.Values + {st.sessions[sid]};
      assert st.sessions[sid] !in smaller.sessions.Values by {
        forall v | v in smaller.sessions.Values
          ensures v.id != sid
        {
          var k :| k in smaller.sessions && smaller.sessions[k] == v;
        }
      }
      assert st.sessions.Keys == smaller.sessions.Keys + {sid};
    }
  }

  lemma SessionOpsPreserveWf(st: Store, sid: SessionId, title: string, now: Time)
    requires Wf(st)
    ensures Wf(CreateSession(st, sid, title, now).store)
    ensures Wf(UpdateSessionTitle(st, sid, title, now).store)
    ensures Wf(DeleteSession(st, sid))
    ensures Wf(DeleteMessages(st, sid))
  {
  }

  // ---------------------------------------------------------------------------
  // Model configurations
  // ---------------------------------------------------------------------------

  /** The ids in `configs` within `[lo, hi)`, in ascending order. */
  function KeysInRange(configs: map<int, ModelConfig>, lo: int, hi: int): (ks: seq<int>)
    ensures forall k :: k in ks <==> k in configs && lo <= k < hi
    ensures forall i, j :: 0 <= i < j < |ks| ==> ks[i] < ks[j]
    decreases hi - lo
  {
    if lo >= hi then []
    else
      var rest := KeysInRange(configs, lo + 1, hi);
      assert forall i :: 0 <= i < |rest| ==> lo < rest[i] by {
        forall i | 0 <= i < |rest|
          ensures lo < rest[i]
        {
          assert rest[i] in rest;
        }
      }
      (if lo in configs then [lo] else []) + rest
  }

  /** `getModelConfigs`: the configurations in map-insertion order. Ids come
      from a counter that only grows, so insertion order is ascending id
      order, the order in which this lists them. */
  function GetModelConfigs(st: Store): (r: seq<ModelConfig>)
    ensures ConfigsWf(st) ==> forall id :: id in st.modelConfigs ==> st.modelConfigs[id] in r
    ensures ConfigsWf(st) ==> forall i :: 0 <= i < |r| ==> r[i].id in st.modelConfigs && st.modelConfigs[r[i].id] == r[i]
    ensures ConfigsWf(st) ==> forall i, j :: 0 <= i < j < |r| ==> r[i].id < r[j].id
  {
    var ks := KeysInRange(st.modelConfigs, 1, st.modelConfigIdCounter);
    assert forall i :: 0 <= i < |ks| ==> ks[i] in ks;
    var r := ConfigsAt(st.modelConfigs, ks);
    ListingCoversConfigs(st, ks, r);
    r
  }

  /** The configurations stored under `ks`, in that order. */
  function ConfigsAt(configs: map<int, ModelConfig>, ks: seq<int>): (r: seq<ModelConfig>)
    requires forall i :: 0 <= i < |ks| ==> ks[i] in configs
    ensures |r| == |ks|
    ensures forall i :: 0 <= i < |ks| ==> r[i] == configs[ks[i]]
  {
    seq(|ks|, i requires 0 <= i < |ks| => configs[ks[i]])
  }

  /** In a well-formed store, the configurations under the ascending stored
      keys are exactly the stored configurations, in ascending id order. */
  lemma ListingCoversConfigs(st: Store, ks: seq<int>, r: seq<ModelConfig>)
    requires forall k :: k in ks <==> k in st.modelConfigs && 1 <= k < st.modelConfigIdCounter
    requires forall i, j :: 0 <= i < j < |ks| ==> ks[i] < ks[j]
    requires forall i :: 0 <= i < |ks| ==> ks[i] in st.modelConfigs
    requires |r| == |ks| && forall i :: 0 <= i < |ks| ==> r[i] == st.modelConfigs[ks[i]]
    ensures ConfigsWf(st) ==> forall id :: id in st.modelConfigs ==> st.modelConfigs[id] in r
    ensures ConfigsWf(st) ==> forall i :: 0 <= i < |r| ==> r[i].id in st.modelConfigs && st.modelConfigs[r[i].id] == r[i]
    ensures ConfigsWf(st) ==> forall i, j :: 0 <= i < j < |r| ==> r[i].id < r[j].id
  {
    if ConfigsWf(st) {
      forall k | k in st.modelConfigs
        ensures st.modelConfigs[k] in r
      {
        assert k in ks;
        var i :| 0 <= i < |ks| && ks[i] == k;
        assert r[i] == st.modelConfigs[k];
      }
      forall i, j | 0 <= i < j < |r|
        ensures r[i].id < r[j].id
      {
        assert ks[i] in ks && ks[j] in ks;
      }
    }
  }

  /** The first active configuration in `cs`. */
  function FirstActive(cs: seq<ModelConfig>): (r: Option<ModelConfig>)
    ensures r.Some? ==> r.value in cs && r.value.isActive
    ensures r.None? ==> forall c :: c in cs ==> !c.isActive
  {
    if |cs| == 0 then None
    else if cs[0].isActive then Some(cs[0])
    else FirstActive(cs[1..])
  }

  /** `getActiveModelConfig`: in a well-formed store, exactly the active
      configuration, or absent when none is. */
  function GetActiveModelConfig(st: Store): (r: Option<ModelConfig>)
    ensures ConfigsWf(st) ==> r.Some? ==> r.value.id in st.modelConfigs && st.modelConfigs[r.value.id] == r.value
    ensures ConfigsWf(st) ==> forall id :: id in st.modelConfigs ==>
              (st.modelConfigs[id].isActive <==> r == Some(st.modelConfigs[id]))
  {
    FirstActive(GetModelConfigs(st))
  }

  /** Clears `isActive` on every configuration except the one under `keep`. */
  function DeactivateOthers(configs: map<int, ModelConfig>, keep: int): (r: map<int, ModelConfig>)
    ensures r.Keys == configs.Keys
    ensures forall k :: k in configs ==>
              r[k] == configs[k].(isActive := configs[k].isActive && k == keep)
  {
    map k | k in configs :: if k != keep && configs[k].isActive then configs[k].(isActive := false) else configs[k]
  }

  /** `createModelConfig`: takes the next id from the counter; `isActive`
      defaults to false; an active newcomer deactivates every other
      configuration. */
  function CreateModelConfig(st: Store, cfg: NewModelConfig, now: Time): (r: Updated<ModelConfig>)
    ensures r.value.id == st.modelConfigIdCounter && r.value.createdAt == now
    ensures r.value.isActive <==> cfg.isActive == Some(true)
    ensures r.value.modelName == cfg.modelName && r.value.baseModel == cfg.baseModel
    ensures r.value.fineTuningMethod == cfg.fineTuningMethod && r.value.deploymentPlatform == cfg.deploymentPlatform
    ensures r.value.parameters == cfg.parameters
    ensures r.store.modelConfigIdCounter == st.modelConfigIdCounter + 1
    ensures r.store.modelConfigs.Keys == st.modelConfigs.Keys + {r.value.id}
    ensures r.store.modelConfigs[r.value.id] == r.value
    ensures forall k :: k in st.modelConfigs && k != r.value.id ==>
              r.store.modelConfigs[k] == st.modelConfigs[k].(isActive := st.modelConfigs[k].isActive && !r.value.isActive)
    ensures r.store.sessions == st.sessions && r.store.messages == st.messages
    ensures r.store.messageIdCounter == st.messageIdCounter
  {
    var id := st.modelConfigIdCounter;
    var active := cfg.isActive.GetOr(false);
    var config := ModelConfig(id, cfg.modelName, cfg.baseModel, cfg.fineTuningMethod,
                              cfg.deploymentPlatform, cfg.parameters, active, now);
    // The source's scan also visits a configuration stored under `id`, but the
    // new record replaces that one, so keeping it out of the scan changes nothing.
    var base := if active then DeactivateOthers(st.modelConfigs, id) else st.modelConfigs;
    Updated(st.(modelConfigs := base[id := config], modelConfigIdCounter := id + 1), config)
  }

  /** The `{ ...existing, ...patch }` spread: supplied fields win, the rest,
      including the id and the creation time, are kept. */
  function Merge(c: ModelConfig, p: ConfigPatch): (r: ModelConfig)
    ensures r.id == c.id && r.createdAt == c.createdAt
    ensures r.modelName == p.modelName.GetOr(c.modelName)
    ensures r.baseModel == p.baseModel.GetOr(c.baseModel)
    ensures r.fineTuningMethod == p.fineTuningMethod.GetOr(c.fineTuningMethod)
    ensures r.deploymentPlatform == p.deploymentPlatform.GetOr(c.deploymentPlatform)
    ensures r.parameters == p.parameters.GetOr(c.parameters)
    ensures r.isActive == p.isActive.GetOr(c.isActive)
  {
    c.(modelName := p.modelName.GetOr(c.modelName),
       baseModel := p.baseModel.GetOr(c.baseModel),
       fineTuningMethod := p.fineTuningMethod.GetOr(c.fineTuningMethod),
       deploymentPlatform := p.deploymentPlatform.GetOr(c.deploymentPlatform),
       parameters := p.parameters.GetOr(c.parameters),
       isActive := p.isActive.GetOr(c.isActive))
  }

  /** Applying the same patch twice is the same as applying it once. */
  lemma MergeIdempotent(c: ModelConfig, p: ConfigPatch)
    ensures Merge(Merge(c, p), p) == Merge(c, p)
  {
  }

  /** The patch turns an inactive configuration active: the only case in
      which `updateModelConfig` deactivates the others. */
  predicate Activates(existing: ModelConfig, p: ConfigPatch) {
    p.isActive == Some(true) && !existing.isActive
  }

  /** `updateModelConfig`: absent and no change for an unknown id; otherwise
      the merged record, after deactivating every other configuration when
      the patch switches this one from inactive to active. */
  function UpdateModelConfig(st: Store, id: int, p: ConfigPatch): (r: Updated<Option<ModelConfig>>)
    ensures r.value.None? <==> id !in st.modelConfigs
    ensures r.value.None? ==> r.store == st
    ensures r.value.Some? ==>
              && r.value.value == Merge(st.modelConfigs[id], p)
              && r.store.modelConfigs.Keys == st.modelConfigs.Keys
              && r.store.modelConfigs[id] == r.value.value
              && forall k :: k in st.modelConfigs && k != id ==>
                   r.store.modelConfigs[k] == st.modelConfigs[k].(isActive :=
                     st.modelConfigs[k].isActive && !Activates(st.modelConfigs[id], p))
    ensures r.store.sessions == st.sessions && r.store.messages == st.messages
    ensures r.store.messageIdCounter == st.messageIdCounter
    ensures r.store.modelConfigIdCounter == st.modelConfigIdCounter
  {
    if id !in st.modelConfigs then Updated(st, None)
    else
      var existing := st.modelConfigs[id];
      var updated := Merge(existing, p);
      var base := if Activates(existing, p) then DeactivateOthers(st.modelConfigs, id) else st.modelConfigs;
      Updated(st.(modelConfigs := base[id := updated]), Some(updated))
  }

  /** The patch `{ isActive: true }`. */
  const ActivatePatch := ConfigPatch(None, None, None, None, None, Some(true))

  /** `setActiveModelConfig`: absent for an unknown id; otherwise the
      configuration becomes active, and in a store where at most one was
      active it is now the only active one. */
  function SetActiveModelConfig(st: Store, id: int): (r: Updated<Option<ModelConfig>>)
    ensures r.value.None? <==> id !in st.modelConfigs
    ensures r.value.None? ==> r.store == st
    ensures r.store.modelConfigs.Keys == st.modelConfigs.Keys
    ensures r.value.Some? ==>
              && r.value.value == st.modelConfigs[id].(isActive := true)
              && r.store.modelConfigs[id] == r.value.value
              && forall k :: k in st.modelConfigs && k != id ==>
                   r.store.modelConfigs[k] == st.modelConfigs[k].(isActive :=
                     st.modelConfigs[k].isActive && st.modelConfigs[id].isActive)
    ensures r.value.Some? && AtMostOneActive(st.modelConfigs) ==>
              forall k :: k in r.store.modelConfigs ==> (r.store.modelConfigs[k].isActive <==> k == id)
    ensures r.store.sessions == st.sessions && r.store.messages == st.messages
    ensures r.store.messageIdCounter == st.messageIdCounter
    ensures r.store.modelConfigIdCounter == st.modelConfigIdCounter
  {
    UpdateModelConfig(st, id, ActivatePatch)
  }

  /** `deleteModelConfig`: removes the id if present. */
  function DeleteModelConfig(st: Store, id: int): (r: Store)
    ensures r.modelConfigs.Keys == st.modelConfigs.Keys - {id}
    ensures forall k :: k in r.modelConfigs ==> r.modelConfigs[k] == st.modelConfigs[k]
    ensures r.sessions == st.sessions && r.messages == st.messages
    ensures r.messageIdCounter == st.messageIdCounter && r.modelConfigIdCounter == st.modelConfigIdCounter
  {
    st.(modelConfigs := st.modelConfigs - {id})
  }

  // Each configuration operation keeps at most one configuration active,
  // and keeps a well-formed store well-formed.

  lemma CreateModelConfigPreservesInvariants(st: Store, cfg: NewModelConfig, now: Time)
    ensures AtMostOneActive(st.modelConfigs) ==> AtMostOneActive(CreateModelConfig(st, cfg, now).store.modelConfigs)
    ensures Wf(st) ==> Wf(CreateModelConfig(st, cfg, now).store)
  {
  }

  lemma UpdateModelConfigPreservesInvariants(st: Store, id: int, p: ConfigPatch)
    ensures AtMostOneActive(st.modelConfigs) ==> AtMostOneActive(UpdateModelConfig(st, id, p).store.modelConfigs)
    ensures Wf(st) ==> Wf(UpdateModelConfig(st, id, p).store)
  {
  }

  lemma SetActiveModelConfigPreservesInvariants(st: Store, id: int)
    ensures AtMostOneActive(st.modelConfigs) ==> AtMostOneActive(SetActiveModelConfig(st, id).store.modelConfigs)
    ensures Wf(st) ==> Wf(SetActiveModelConfig(st, id).store)
  {
  }

  lemma DeleteModelConfigPreservesInvariants(st: Store, id: int)
    ensures AtMostOneActive(st.modelConfigs) ==> AtMostOneActive(DeleteModelConfig(st, id).modelConfigs)
    ensures Wf(st) ==> Wf(DeleteModelConfig(st, id))
  {
  }
}
