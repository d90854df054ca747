/**
 * Keys of deployments. A mutable deployment gets a key id of its own or takes over that of an
 * earlier one; editing a script moves the key id along. Hashes are injective: a deployment hash is
 * the owner and the script it was made of, a fresh key id the job it was made for.
 */
module KeyIds {
  import opened Wrappers

  type Account = nat
  type Script = string

  /** A job id: the owner, and a number no other job has. */
  datatype JobId = JobId(owner: Account, number: nat)

  datatype DeploymentHash = Hashed(owner: Account, script: Script)

  type KeyId = JobId

  datatype Mutability = Immutable | Mutable(editor: Option<Account>)

  datatype State = State(
    lastNumber: nat, deploymentKeys: map<DeploymentHash, KeyId>, jobKeys: map<JobId, KeyId>,
    hashes: map<JobId, DeploymentHash>, editors: map<JobId, Account>, scripts: map<JobId, Script>)

  const NO_STATE := State(0, map[], map[], map[], map[], map[])

  // ----- operations -----

  /** The key id of one deployment becomes that of another, or there is none to take over. */
  function KeyMoved(s: State, from: DeploymentHash, to: DeploymentHash): Option<(State, KeyId)> {
    if from !in s.deploymentKeys then None
    else
      var key := s.deploymentKeys[from];
      Some((s.(deploymentKeys := (s.deploymentKeys - {from})[to := key]), key))
  }

  /** An immutable job can only continue one with the same script that is not mutable. */
  predicate MayContinue(s: State, hash: DeploymentHash, original: JobId) {
    (original in s.hashes ==> s.hashes[original] == hash) && original !in s.editors
  }

  /** Who may take over keys: the owner, who must be the editor to change editor or script. */
  predicate MayReuse(s: State, job: JobId, hash: DeploymentHash, editor: Option<Account>, original: JobId) {
    && original.owner == job.owner && original in s.editors && original in s.hashes
    && (editor.Some? ==> s.editors[original] == job.owner || s.editors[original] == editor.value)
    && (s.editors[original] == job.owner || s.hashes[original] == hash)
  }

  /** A mutable deployment's key id and editor. */
  function KeyFor(s: State, job: JobId, hash: DeploymentHash, editor: Option<Account>, reuse: Option<JobId>)
    : Option<(State, KeyId, Account)>
  {
    match reuse
    case None => Some((s, job, if editor.Some? then editor.value else job.owner))
    case Some(original) =>
      if !MayReuse(s, job, hash, editor, original) then None
      else
        match KeyMoved(s, s.hashes[original], hash)
        case None => None
        case Some((s', key)) => Some((s', key, if editor.Some? then editor.value else s.editors[original]))
  }

  /** Deploying a job; `registrable` is whether the rest of its registration goes through. */
  function Deployed(s: State, who: Account, script: Script, mutability: Mutability, reuse: Option<JobId>,
                    registrable: bool)
    : Option<State>
  {
    var job := JobId(who, s.lastNumber + 1);
    var hash := Hashed(who, script);
    var s1 := s.(lastNumber := s.lastNumber + 1);
    var keyed :=
      match mutability
      case Immutable => if reuse.Some? && !MayContinue(s, hash, reuse.value) then None else Some(s1)
      case Mutable(editor) =>
        match KeyFor(s1, job, hash, editor, reuse)
        case None => None
        case Some((s2, key, e)) =>
          Some(s2.(editors := s2.editors[job := e], deploymentKeys := s2.deploymentKeys[hash := key],
                   jobKeys := s2.jobKeys[job := key]));
    if keyed.None? || !registrable then None
    else Some(keyed.value.(hashes := keyed.value.hashes[job := hash], scripts := keyed.value.scripts[job := script]))
  }

  /** The editor changes the script of a job; the job keeps its keys. */
  function Edited(s: State, who: Account, job: JobId, script: Script): Option<State> {
    if job !in s.editors || s.editors[job] != who || job !in s.scripts then None
    else
      match KeyMoved(s, Hashed(job.owner, s.scripts[job]), Hashed(job.owner, script))
      case None => None
      case Some((s', _)) =>
        Some(s'.(scripts := s'.scripts[job := script], hashes := s'.hashes[job := Hashed(job.owner, script)]))
  }

  function EditorTransferred(s: State, who: Account, job: JobId, to: Option<Account>): Option<State> {
    if job !in s.editors || s.editors[job] != who then None
    else Some(s.(editors := if to.Some? then s.editors[job := to.value] else s.editors - {job}))
  }

  function Deregistered(s: State, job: JobId): State {
    s.(jobKeys := s.jobKeys - {job}, scripts := s.scripts - {job})
  }

  // ----- what holds in every reachable state -----

  /** A key id belongs to at most one deployment. */
  ghost predicate OneDeployment(s: State) {
    forall h, h' :: h in s.deploymentKeys && h' in s.deploymentKeys && s.deploymentKeys[h] == s.deploymentKeys[h']
      ==> h == h'
  }

  /** Numbers of jobs, and of the jobs key ids were made for, have been given out. */
  ghost predicate Numbered(s: State) {
    && (forall h :: h in s.deploymentKeys ==> s.deploymentKeys[h].number <= s.lastNumber)
    && (forall j :: j in s.jobKeys ==> j.number <= s.lastNumber && s.jobKeys[j].number <= s.lastNumber)
  }

  /** Key ids stay with the owner they were made for. */
  ghost predicate SameOwner(s: State) {
    && (forall h :: h in s.deploymentKeys ==> s.deploymentKeys[h].owner == h.owner)
    && (forall j :: j in s.jobKeys ==> s.jobKeys[j].owner == j.owner)
    && (forall j :: j in s.hashes ==> s.hashes[j].owner == j.owner)
  }

  ghost predicate Sound(s: State) {
    OneDeployment(s) && Numbered(s) && SameOwner(s)
  }

  lemma {:induction false} MoveSound(s: State, from: DeploymentHash, to: DeploymentHash)
    requires Sound(s) && KeyMoved(s, from, to).Some? && from.owner == to.owner
    ensures var (s', key) := KeyMoved(s, from, to).value;
      && Sound(s') && key.number <= s.lastNumber && key.owner == to.owner
      && to in s'.deploymentKeys && s'.deploymentKeys[to] == key
      && s' == s.(deploymentKeys := s'.deploymentKeys)
  {
  }

  /** A fresh key id for a deployment, replacing the one it had, if any. */
  lemma {:induction false} FreshSound(s: State, hash: DeploymentHash, job: JobId)
    requires Sound(s) && job.owner == hash.owner && job.number == s.lastNumber + 1
    ensures Sound(s.(lastNumber := job.number, deploymentKeys := s.deploymentKeys[hash := job]))
  {
  }

  /** The jobs' own records do not matter to the deployments. */
  lemma {:induction false} RecordsSound(s: State, s': State, job: JobId, hash: DeploymentHash, key: Option<KeyId>)
    requires Sound(s) && job.number <= s.lastNumber && hash.owner == job.owner
      && (key.Some? ==> key.value.owner == job.owner && key.value.number <= s.lastNumber)
    requires s'.lastNumber == s.lastNumber && s'.deploymentKeys == s.deploymentKeys
    requires s'.hashes == s.hashes[job := hash]
    requires s'.jobKeys == if key.Some? then s.jobKeys[job := key.value] else s.jobKeys
    ensures Sound(s')
  {
  }

  lemma {:induction false} CountSound(s: State)
    requires Sound(s)
    ensures Sound(s.(lastNumber := s.lastNumber + 1))
  {
  }

  lemma {:induction false} HashOwner(s: State, job: JobId)
    requires Sound(s)
    ensures job in s.hashes ==> s.hashes[job].owner == job.owner
  {
  }

  /** Deploying under a fresh key id, or under none. */
  lemma {:induction false} DeployFreshSound(s: State, who: Account, script: Script, mutability: Mutability,
                                            reuse: Option<JobId>)
    requires Sound(s) && Deployed(s, who, script, mutability, reuse, true).Some?
    requires mutability.Immutable? || reuse.None?
    ensures Sound(Deployed(s, who, script, mutability, reuse, true).value)
  {
    var job, hash := JobId(who, s.lastNumber + 1), Hashed(who, script);
    var s1 := s.(lastNumber := s.lastNumber + 1);
    var s' := Deployed(s, who, script, mutability, reuse, true).value;
    hide Sound, MayContinue;
    CountSound(s);
    if mutability.Immutable? {
      RecordsSound(s1, s', job, hash, None);
    } else {
      FreshSound(s, hash, job);
      RecordsSound(s1.(deploymentKeys := s.deploymentKeys[hash := job]), s', job, hash, Some(job));
    }
  }

  lemma {:induction false} ReuseShape(s: State, who: Account, script: Script, editor: Option<Account>, original: JobId)
    requires Deployed(s, who, script, Mutable(editor), Some(original), true).Some?
    ensures original in s.hashes && original.owner == who
    ensures KeyMoved(s.(lastNumber := s.lastNumber + 1), s.hashes[original], Hashed(who, script)).Some?
    ensures var s', job, hash := Deployed(s, who, script, Mutable(editor), Some(original), true).value,
                                 JobId(who, s.lastNumber + 1), Hashed(who, script);
      var (s2, key) := KeyMoved(s.(lastNumber := s.lastNumber + 1), s.hashes[original], hash).value;
      && s'.lastNumber == s2.lastNumber && s'.deploymentKeys == s2.deploymentKeys[hash := key]
      && s'.hashes == s2.hashes[job := hash] && s'.jobKeys == s2.jobKeys[job := key]
  {
    hide KeyMoved;
  }

  /** Deploying under the key id of an earlier deployment. */
  lemma {:induction false} DeployReuseSound(s: State, who: Account, script: Script, editor: Option<Account>,
                                            original: JobId)
    requires Sound(s) && Deployed(s, who, script, Mutable(editor), Some(original), true).Some?
    ensures Sound(Deployed(s, who, script, Mutable(editor), Some(original), true).value)
  {
    hide Sound, Deployed, KeyMoved;
    ReuseShape(s, who, script, editor, original);
    var job, hash := JobId(who, s.lastNumber + 1), Hashed(who, script);
    var s1 := s.(lastNumber := s.lastNumber + 1);
    CountSound(s);
    HashOwner(s, original);
    MoveSound(s1, s.hashes[original], hash);
    var (s2, key) := KeyMoved(s1, s.hashes[original], hash).value;
    assert s2.deploymentKeys[hash := key] == s2.deploymentKeys;
    RecordsSound(s2, Deployed(s, who, script, Mutable(editor), Some(original), true).value, job, hash, Some(key));
  }

  lemma {:induction false} DeploySound(s: State, who: Account, script: Script, mutability: Mutability,
                                       reuse: Option<JobId>, registrable: bool)
    requires Sound(s) && Deployed(s, who, script, mutability, reuse, registrable).Some?
    ensures Sound(Deployed(s, who, script, mutability, reuse, registrable).value)
  {
    hide Sound, KeyFor, MayContinue;
    if mutability.Mutable? && reuse.Some? {
      DeployReuseSound(s, who, script, mutability.editor, reuse.value);
    } else {
      DeployFreshSound(s, who, script, mutability, reuse);
    }
  }

  lemma {:induction false} EditSound(s: State, who: Account, job: JobId, script: Script)
    requires Sound(s) && Edited(s, who, job, script).Some?
    ensures Sound(Edited(s, who, job, script).value)
  {
    MoveSound(s, Hashed(job.owner, s.scripts[job]), Hashed(job.owner, script));
  }

  // ----- runs -----

  datatype Call =
    | Deploy(who: Account, script: Script, mutability: Mutability, reuse: Option<JobId>, registrable: bool)
    | EditScript(who: Account, job: JobId, script: Script)
    | TransferEditor(who: Account, job: JobId, to: Option<Account>)
    | Deregister(job: JobId)

  function Next(s: State, call: Call): State {
    var r :=
      match call
      case Deploy(who, script, mutability, reuse, registrable) =>
        Deployed(s, who, script, mutability, reuse, registrable)
      case EditScript(who, job, script) => Edited(s, who, job, script)
      case TransferEditor(who, job, to) => EditorTransferred(s, who, job, to)
      case Deregister(job) => Some(Deregistered(s, job));
    if r.Some? then r.value else s
  }

  function Run(s: State, calls: seq<Call>): State
    decreases |calls|
  {
    if calls == [] then s else Run(Next(s, calls[0]), calls[1..])
  }

  lemma {:induction false} NextSound(s: State, call: Call)
    requires Sound(s)
    ensures Sound(Next(s, call))
  {
    hide Deployed, Edited, EditorTransferred, Deregistered;
    match call
    case Deploy(who, script, mutability, reuse, registrable) =>
      if Deployed(s, who, script, mutability, reuse, registrable).Some? {
        DeploySound(s, who, script, mutability, reuse, registrable);
      }
    case EditScript(who, job, script) =>
      if Edited(s, who, job, script).Some? {
        EditSound(s, who, job, script);
      }
    case TransferEditor(who, job, to) =>
      TransferSound(s, who, job, to);
    case Deregister(job) =>
      DeregisterSound(s, job);
  }

  lemma {:induction false} TransferSound(s: State, who: Account, job: JobId, to: Option<Account>)
    requires Sound(s)
    ensures EditorTransferred(s, who, job, to).Some? ==> Sound(EditorTransferred(s, who, job, to).value)
  {
  }

  lemma {:induction false} DeregisterSound(s: State, job: JobId)
    requires Sound(s)
    ensures Sound(Deregistered(s, job))
  {
  }

  lemma {:induction false} RunSound(s: State, calls: seq<Call>)
    requires Sound(s)
    ensures Sound(Run(s, calls))
    decreases |calls|
  {
    hide Sound, Next;
    if calls != [] {
      NextSound(s, calls[0]);
      RunSound(Next(s, calls[0]), calls[1..]);
    }
  }

  /** Whatever is deployed, reused and edited: one deployment per key id, and key ids stay with their owner. */
  lemma {:induction false} KeyBelongsToOne(calls: seq<Call>, h: DeploymentHash, h': DeploymentHash, j: JobId)
    ensures var s := Run(NO_STATE, calls);
      && (h in s.deploymentKeys && h' in s.deploymentKeys && s.deploymentKeys[h] == s.deploymentKeys[h'] ==> h == h')
      && (h in s.deploymentKeys ==> s.deploymentKeys[h].owner == h.owner)
      && (j in s.jobKeys ==> s.jobKeys[j].owner == j.owner)
  {
    RunSound(NO_STATE, calls);
    hide Run;
  }

  /** No call of the run deregisters the job. */
  predicate Kept(calls: seq<Call>, job: JobId) {
    calls == [] || (calls[0] != Deregister(job) && Kept(calls[1..], job))
  }

  lemma {:induction false} KeyKeptOnce(s: State, call: Call, job: JobId)
    requires Sound(s) && job in s.jobKeys && call != Deregister(job)
    ensures job in Next(s, call).jobKeys && Next(s, call).jobKeys[job] == s.jobKeys[job]
  {
    match call
    case Deploy(who, script, mutability, reuse, registrable) =>
      assert JobId(who, s.lastNumber + 1) != job;
    case EditScript(who, j, script) =>
    case TransferEditor(who, j, to) =>
    case Deregister(j) =>
  }

  /** A job's key id never changes while the job is registered. */
  lemma {:induction false} KeyImmutable(s: State, calls: seq<Call>, job: JobId)
    requires Sound(s) && job in s.jobKeys && Kept(calls, job)
    ensures job in Run(s, calls).jobKeys && Run(s, calls).jobKeys[job] == s.jobKeys[job]
    decreases |calls|
  {
    hide Sound, Next;
    if calls != [] {
      KeyKeptOnce(s, calls[0], job);
      NextSound(s, calls[0]);
      KeyImmutable(Next(s, calls[0]), calls[1..], job);
    }
  }

  // ----- who may do what -----

  /**
   * A mutable job reuses the keys of an earlier one of its owner, if that is mutable and its deployment
   * has keys; to change the script or the editor the owner must be the editor.
   */
  lemma {:induction false} ReusableWhen(s: State, who: Account, script: Script, editor: Option<Account>,
                                        original: JobId)
    ensures Deployed(s, who, script, Mutable(editor), Some(original), true).Some? <==>
      && original.owner == who && original in s.editors && original in s.hashes
      && s.hashes[original] in s.deploymentKeys
      && (|| s.editors[original] == who
          || (s.hashes[original] == Hashed(who, script) && (editor.None? || editor.value == s.editors[original])))
  {
  }

  /** An immutable job continues any but a mutable one and one of another script, and gets no keys. */
  lemma {:induction false} ContinuesWhen(s: State, who: Account, script: Script, reuse: Option<JobId>)
    ensures var r := Deployed(s, who, script, Immutable, reuse, true);
      && (r.Some? <==> reuse.None? || (&& reuse.value !in s.editors
                                       && (reuse.value in s.hashes ==> s.hashes[reuse.value] == Hashed(who, script))))
      && (r.Some? ==> r.value.deploymentKeys == s.deploymentKeys && r.value.jobKeys == s.jobKeys
                      && r.value.editors == s.editors)
  {
  }

  /** The editor of a mutable job is the one named, or else the original's, or else the owner. */
  lemma {:induction false} EditorOf(s: State, who: Account, script: Script, editor: Option<Account>,
                                    reuse: Option<JobId>)
    requires Deployed(s, who, script, Mutable(editor), reuse, true).Some?
    ensures var s', job := Deployed(s, who, script, Mutable(editor), reuse, true).value, JobId(who, s.lastNumber + 1);
      && job in s'.editors
      && (editor.Some? ==> s'.editors[job] == editor.value)
      && (editor.None? && reuse.None? ==> s'.editors[job] == who)
      && (editor.None? && reuse.Some? ==> reuse.value in s.editors && s'.editors[job] == s.editors[reuse.value])
  {
  }

  /** A script is edited exactly by the editor of a job whose deployment has keys. */
  lemma {:induction false} EditableWhen(s: State, who: Account, job: JobId, script: Script)
    ensures Edited(s, who, job, script).Some? <==>
      && job in s.editors && s.editors[job] == who && job in s.scripts
      && Hashed(job.owner, s.scripts[job]) in s.deploymentKeys
  {
  }

  /** The editor, and no one else, hands over or gives up the editing of a job. */
  lemma {:induction false} TransferableWhen(s: State, who: Account, job: JobId, to: Option<Account>)
    ensures var r := EditorTransferred(s, who, job, to);
      && (r.Some? <==> job in s.editors && s.editors[job] == who)
      && (r.Some? ==>
            && (job in r.value.editors <==> to.Some?) && (to.Some? ==> r.value.editors[job] == to.value)
            && r.value.jobKeys == s.jobKeys && r.value.deploymentKeys == s.deploymentKeys
            && r.value.editors - {job} == s.editors - {job})
  {
  }

  /** Jobs with an editor or a script have been given out. */
  ghost predicate Given(s: State) {
    forall j :: j in s.editors || j in s.scripts ==> j.number <= s.lastNumber
  }

  /** The call is the editor's own on the job, or deregisters it. */
  predicate Acts(call: Call, job: JobId, editor: Account) {
    match call
    case EditScript(who, j, _) => j == job && who == editor
    case TransferEditor(who, j, _) => j == job && who == editor
    case Deregister(j) => j == job
    case Deploy(_, _, _, _, _) => false
  }

  predicate NoneActs(calls: seq<Call>, job: JobId, editor: Account) {
    calls == [] || (!Acts(calls[0], job, editor) && NoneActs(calls[1..], job, editor))
  }

  predicate EditedBy(s: State, job: JobId, editor: Account, script: Script) {
    && job in s.editors && s.editors[job] == editor && job in s.scripts && s.scripts[job] == script
  }

  lemma {:induction false} EditedByKept(s: State, call: Call, job: JobId, editor: Account, script: Script)
    requires Given(s) && EditedBy(s, job, editor, script) && !Acts(call, job, editor)
    ensures EditedBy(Next(s, call), job, editor, script)
  {
  }

  lemma {:induction false} GivenNext(s: State, call: Call)
    requires Given(s)
    ensures Given(Next(s, call))
  {
    hide Deployed;
    if call.Deploy? && Deployed(s, call.who, call.script, call.mutability, call.reuse, call.registrable).Some? {
      GivenDeployed(s, call.who, call.script, call.mutability, call.reuse, call.registrable);
    }
  }

  lemma {:induction false} GivenDeployed(s: State, who: Account, script: Script, mutability: Mutability,
                                         reuse: Option<JobId>, registrable: bool)
    requires Given(s) && Deployed(s, who, script, mutability, reuse, registrable).Some?
    ensures Given(Deployed(s, who, script, mutability, reuse, registrable).value)
  {
  }

  /** A job that ends has no key id and no script any more; its deployment keeps the key id for reuse. */
  lemma {:induction false} DeregisterClears(s: State, job: JobId)
    ensures var s' := Deregistered(s, job);
      && job !in s'.jobKeys && job !in s'.scripts && s'.jobKeys - {job} == s.jobKeys - {job}
      && s'.scripts - {job} == s.scripts - {job}
      && s'.deploymentKeys == s.deploymentKeys && s'.hashes == s.hashes && s'.editors == s.editors
  {
  }

  lemma {:induction false} RunGiven(s: State, calls: seq<Call>)
    requires Given(s)
    ensures Given(Run(s, calls))
    decreases |calls|
  {
    hide Next, Given;
    if calls != [] {
      GivenNext(s, calls[0]);
      RunGiven(Next(s, calls[0]), calls[1..]);
    }
  }

  lemma {:induction false} EditedByRun(s: State, calls: seq<Call>, job: JobId, editor: Account, script: Script)
    requires Given(s) && EditedBy(s, job, editor, script) && NoneActs(calls, job, editor)
    ensures EditedBy(Run(s, calls), job, editor, script)
    decreases |calls|
  {
    hide Next, Given, EditedBy;
    if calls != [] {
      EditedByKept(s, calls[0], job, editor, script);
      GivenNext(s, calls[0]);
      EditedByRun(Next(s, calls[0]), calls[1..], job, editor, script);
    }
  }

  /** In every run a mutable job's editor and script stay as they are until its editor acts on it, or it ends. */
  lemma {:induction false} EditorDecides(before: seq<Call>, after: seq<Call>, job: JobId)
    requires var s := Run(NO_STATE, before);
      job in s.editors && job in s.scripts && NoneActs(after, job, s.editors[job])
    ensures var s := Run(NO_STATE, before);
      EditedBy(Run(s, after), job, s.editors[job], s.scripts[job])
  {
    assert Given(NO_STATE);
    hide Run, Given;
    RunGiven(NO_STATE, before);
    var s := Run(NO_STATE, before);
    EditedByRun(s, after, job, s.editors[job], s.scripts[job]);
  }

  // ----- taking over keys -----

  /** A mutable deployment of its own gets a key id that no deployment and no job has had, and its hash holds it. */
  lemma {:induction false} FreshKey(s: State, who: Account, script: Script, editor: Option<Account>, registrable: bool)
    requires Sound(s) && Deployed(s, who, script, Mutable(editor), None, registrable).Some?
    ensures var s', job := Deployed(s, who, script, Mutable(editor), None, registrable).value,
                           JobId(who, s.lastNumber + 1);
      && job in s'.jobKeys && Holds(s', Hashed(who, script), s'.jobKeys[job])
      && (forall h :: h in s.deploymentKeys ==> s.deploymentKeys[h] != s'.jobKeys[job])
      && (forall j :: j in s.jobKeys ==> s.jobKeys[j] != s'.jobKeys[job])
  {
  }

  /** The deployment has the key id. */
  predicate Holds(s: State, h: DeploymentHash, key: KeyId) {
    h in s.deploymentKeys && s.deploymentKeys[h] == key
  }

  /** Reusing keys takes them from the original's deployment, which is left without, to the new one. */
  lemma {:induction false} ReuseTakesOver(s: State, who: Account, script: Script, editor: Option<Account>,
                                          original: JobId, registrable: bool)
    requires Deployed(s, who, script, Mutable(editor), Some(original), registrable).Some?
    ensures original in s.hashes && s.hashes[original] in s.deploymentKeys && original.owner == who
    ensures var s', job := Deployed(s, who, script, Mutable(editor), Some(original), registrable).value,
                           JobId(who, s.lastNumber + 1);
      && job in s'.jobKeys && s'.jobKeys[job] == s.deploymentKeys[s.hashes[original]]
      && Holds(s', Hashed(who, script), s'.jobKeys[job])
      && (s.hashes[original] != Hashed(who, script) ==> s.hashes[original] !in s'.deploymentKeys)
      && (forall h :: h != Hashed(who, script) && h != s.hashes[original] ==>
            (h in s'.deploymentKeys <==> h in s.deploymentKeys)
            && (h in s.deploymentKeys ==> s'.deploymentKeys[h] == s.deploymentKeys[h]))
  {
  }

  /** So the new job gets the original's own key id exactly when the original's deployment still has it. */
  lemma {:induction false} ReuseKeepsKeyWhen(s: State, who: Account, script: Script, editor: Option<Account>,
                                             original: JobId, registrable: bool)
    requires Deployed(s, who, script, Mutable(editor), Some(original), registrable).Some? && original in s.jobKeys
    ensures original in s.hashes
    ensures var s', job := Deployed(s, who, script, Mutable(editor), Some(original), registrable).value,
                           JobId(who, s.lastNumber + 1);
      job in s'.jobKeys
      && (s'.jobKeys[job] == s.jobKeys[original] <==> Holds(s, s.hashes[original], s.jobKeys[original]))
  {
    hide Deployed;
    ReuseTakesOver(s, who, script, editor, original, registrable);
  }

  /** Editing a script moves the key id, too. */
  lemma {:induction false} EditMovesKey(s: State, who: Account, job: JobId, script: Script)
    requires Edited(s, who, job, script).Some?
    ensures job in s.scripts && job in s.editors && s.editors[job] == who
    ensures var s', was, now := Edited(s, who, job, script).value, Hashed(job.owner, s.scripts[job]),
                                Hashed(job.owner, script);
      && was in s.deploymentKeys && Holds(s', now, s.deploymentKeys[was])
      && (was != now ==> was !in s'.deploymentKeys) && s'.jobKeys == s.jobKeys
      && job in s'.scripts && s'.scripts[job] == script && job in s'.hashes && s'.hashes[job] == now
  {
  }

  /** The call deploys or edits a script of this hash, or takes keys from it. */
  predicate Touches(s: State, call: Call, h: DeploymentHash) {
    match call
    case Deploy(who, script, _, reuse, _) =>
      || Hashed(who, script) == h
      || (reuse.Some? && reuse.value in s.hashes && s.hashes[reuse.value] == h)
    case EditScript(_, job, script) =>
      Hashed(job.owner, script) == h || (job in s.scripts && Hashed(job.owner, s.scripts[job]) == h)
    case _ => false
  }

  predicate Untouched(s: State, calls: seq<Call>, h: DeploymentHash)
    decreases |calls|
  {
    calls == [] || (!Touches(s, calls[0], h) && Untouched(Next(s, calls[0]), calls[1..], h))
  }

  /** The job's script is the deployment's, and the deployment has the key id. */
  predicate Current(s: State, job: JobId, h: DeploymentHash, key: KeyId) {
    job in s.hashes && s.hashes[job] == h && Holds(s, h, key) && job.number <= s.lastNumber
  }

  /** Jobs that still have a script are recorded under its hash. */
  ghost predicate Recorded(s: State) {
    forall j :: j in s.scripts ==> j in s.hashes && s.hashes[j] == Hashed(j.owner, s.scripts[j])
  }

  lemma {:induction false} CurrentKept(s: State, call: Call, job: JobId, h: DeploymentHash, key: KeyId)
    requires Recorded(s) && Current(s, job, h, key) && !Touches(s, call, h)
    ensures Current(Next(s, call), job, h, key)
  {
  }

  lemma {:induction false} RecordedNext(s: State, call: Call)
    requires Recorded(s)
    ensures Recorded(Next(s, call))
  {
  }

  lemma {:induction false} CurrentRun(s: State, calls: seq<Call>, job: JobId, h: DeploymentHash, key: KeyId)
    requires Recorded(s) && Current(s, job, h, key) && Untouched(s, calls, h)
    ensures Current(Run(s, calls), job, h, key)
    decreases |calls|
  {
    hide Next, Current, Touches, Recorded;
    if calls != [] {
      CurrentKept(s, calls[0], job, h, key);
      RecordedNext(s, calls[0]);
      CurrentRun(Next(s, calls[0]), calls[1..], job, h, key);
    }
  }

  lemma {:induction false} RunRecorded(s: State, calls: seq<Call>)
    requires Recorded(s)
    ensures Recorded(Run(s, calls))
    decreases |calls|
  {
    hide Next, Recorded;
    if calls != [] {
      RecordedNext(s, calls[0]);
      RunRecorded(Next(s, calls[0]), calls[1..]);
    }
  }

  /**
   * A job deployed anew keeps its key id for a later deployment that reuses it: if in between nothing
   * of the same owner and script is deployed, edited or reused, the later job gets that very key id.
   */
  lemma {:induction false} KeyContinues(before: seq<Call>, who: Account, script: Script, editor: Option<Account>,
                                        between: seq<Call>, script': Script, editor': Option<Account>)
    requires var s := Run(NO_STATE, before);
      && Deployed(s, who, script, Mutable(editor), None, true).Some?
      && var s1 := Next(s, Deploy(who, script, Mutable(editor), None, true));
      && Untouched(s1, between, Hashed(who, script))
      && Deployed(Run(s1, between), who, script', Mutable(editor'), Some(JobId(who, s.lastNumber + 1)), true).Some?
    ensures var s := Run(NO_STATE, before);
      var s1, job := Next(s, Deploy(who, script, Mutable(editor), None, true)), JobId(who, s.lastNumber + 1);
      var s2 := Run(s1, between);
      var s3, later := Next(s2, Deploy(who, script', Mutable(editor'), Some(job), true)), JobId(who, s2.lastNumber + 1);
      job in s1.jobKeys && later in s3.jobKeys && s3.jobKeys[later] == s1.jobKeys[job]
  {
    EmptyOk();
    hide Run, Untouched, Deployed, Sound, Recorded;
    RunSound(NO_STATE, before);
    RunRecorded(NO_STATE, before);
    var s := Run(NO_STATE, before);
    var s1, job, h := Next(s, Deploy(who, script, Mutable(editor), None, true)), JobId(who, s.lastNumber + 1),
                      Hashed(who, script);
    FreshKey(s, who, script, editor, true);
    DeployedRecords(s, who, script, Mutable(editor), None, true);
    RecordedNext(s, Deploy(who, script, Mutable(editor), None, true));
    CurrentRun(s1, between, job, h, s1.jobKeys[job]);
    ReuseTakesOver(Run(s1, between), who, script', editor', job, true);
  }

  lemma {:induction false} EmptyOk()
    ensures Sound(NO_STATE) && Recorded(NO_STATE)
  {
  }

  lemma {:induction false} DeployedRecords(s: State, who: Account, script: Script, mutability: Mutability,
                                           reuse: Option<JobId>, registrable: bool)
    requires Deployed(s, who, script, mutability, reuse, registrable).Some?
    ensures var s', job := Deployed(s, who, script, mutability, reuse, registrable).value,
                           JobId(who, s.lastNumber + 1);
      && job in s'.hashes && s'.hashes[job] == Hashed(who, script) && s'.lastNumber == job.number
      && job in s'.scripts && s'.scripts[job] == script
  {
  }

  /**
   * Deploying the same script again replaces the deployment's key id, so reusing the first job then
   * gives the second job's.
   */
  lemma {:induction false} SecondDeploymentReplacesKey() returns (calls: seq<Call>)
    ensures var s := Run(NO_STATE, calls);
      var first, second, third := JobId(1, 1), JobId(1, 2), JobId(1, 3);
      && first in s.jobKeys && second in s.jobKeys && third in s.jobKeys
      && |calls| == 3 && calls[2] == Deploy(1, "a", Mutable(None), Some(first), true)
      && s.jobKeys[third] == s.jobKeys[second] != s.jobKeys[first]
  {
    var once := Deploy(1, "a", Mutable(None), None, true);
    var again := Deploy(1, "a", Mutable(None), Some(JobId(1, 1)), true);
    hide Run, Next;
    var none: seq<Call> := [];
    var c2 := [again] + none;
    var c1 := [once] + c2;
    calls := [once] + c1;
    FirstKey();
    SecondKey();
    ThirdKey();
    RunStep(NO_STATE, once, c1);
    RunStep(ONCE, once, c2);
    RunStep(TWICE, again, none);
    RunNone(Next(TWICE, again));
  }

  lemma {:induction false} RunStep(s: State, call: Call, calls: seq<Call>)
    ensures Run(s, [call] + calls) == Run(Next(s, call), calls)
  {
    hide Next;
    assert ([call] + calls)[0] == call && ([call] + calls)[1..] == calls;
  }

  lemma {:induction false} RunNone(s: State)
    ensures Run(s, []) == s
  {
  }

  const SHARED := Hashed(1, "a")
  const ONCE := State(1, map[SHARED := JobId(1, 1)], map[JobId(1, 1) := JobId(1, 1)], map[JobId(1, 1) := SHARED],
                      map[JobId(1, 1) := 1], map[JobId(1, 1) := "a"])
  const TWICE := State(2, map[SHARED := JobId(1, 2)], ONCE.jobKeys[JobId(1, 2) := JobId(1, 2)],
                       ONCE.hashes[JobId(1, 2) := SHARED], ONCE.editors[JobId(1, 2) := 1],
                       ONCE.scripts[JobId(1, 2) := "a"])

  lemma {:induction false} FirstKey()
    ensures Next(NO_STATE, Deploy(1, "a", Mutable(None), None, true)) == ONCE
  {
  }

  lemma {:induction false} SecondKey()
    ensures Next(ONCE, Deploy(1, "a", Mutable(None), None, true)) == TWICE
  {
    assert ONCE.deploymentKeys[SHARED := JobId(1, 2)] == TWICE.deploymentKeys;
  }

  lemma {:induction false} ThirdKey()
    ensures var s := Next(TWICE, Deploy(1, "a", Mutable(None), Some(JobId(1, 1)), true));
      s.jobKeys == TWICE.jobKeys[JobId(1, 3) := JobId(1, 2)]
  {
    assert TWICE.editors[JobId(1, 1)] == 1 && TWICE.hashes[JobId(1, 1)] == SHARED;
    var s := TWICE.(lastNumber := 3);
    assert KeyMoved(s, SHARED, SHARED).Some? && KeyMoved(s, SHARED, SHARED).value.1 == JobId(1, 2);
    hide KeyMoved;
  }

  // ----- the pallet -----

  class Deployments {
    var s: State

    ghost predicate Valid()
      reads this
    {
      Sound(s)
    }

    constructor ()
      ensures Valid() && s == NO_STATE
    {
      s := NO_STATE;
    }

    /** Clears the key id of one deployment and gives it to another. */
    method TransferKeyId(original: DeploymentHash, updated: DeploymentHash) returns (key: Option<KeyId>)
      modifies this
      ensures key.Some? <==> KeyMoved(old(s), original, updated).Some?
      ensures key.Some? ==> KeyMoved(old(s), original, updated).value == (s, key.value)
      ensures key.None? ==> s == old(s)
    {
      if original !in s.deploymentKeys {
        return None;
      }
      key := Some(s.deploymentKeys[original]);
      s := s.(deploymentKeys := s.deploymentKeys - {original});
      s := s.(deploymentKeys := s.deploymentKeys[updated := key.value]);
    }

    method Deploy(who: Account, script: Script, mutability: Mutability, reuse: Option<JobId>, registrable: bool)
      returns (ok: bool)
      requires Valid()
      modifies this
      ensures Valid() && ok == Deployed(old(s), who, script, mutability, reuse, registrable).Some?
      ensures s == if ok then Deployed(old(s), who, script, mutability, reuse, registrable).value else old(s)
    {
      hide Sound, MayContinue;
      var before := s;
      if Deployed(s, who, script, mutability, reuse, registrable).Some? {
        DeploySound(s, who, script, mutability, reuse, registrable);
      }
      s := s.(lastNumber := s.lastNumber + 1);
      var job := JobId(who, s.lastNumber);
      var hash := Hashed(who, script);
      match mutability {
        case Immutable =>
          if reuse.Some? && !MayContinue(before, hash, reuse.value) {
            s := before;
            return false;
          }
        case Mutable(editor) =>
          var key, derived := job, if editor.Some? then editor.value else who;
          if reuse.Some? {
            var original := reuse.value;
            if !MayReuse(s, job, hash, editor, original) {
              s := before;
              return false;
            }
            derived := if editor.Some? then editor.value else s.editors[original];
            var moved := TransferKeyId(s.hashes[original], hash);
            if moved.None? {
              s := before;
              return false;
            }
            key := moved.value;
          }
          s := s.(editors := s.editors[job := derived]);
          s := s.(deploymentKeys := s.deploymentKeys[hash := key]);
          s := s.(jobKeys := s.jobKeys[job := key]);
      }
      s := s.(hashes := s.hashes[job := hash]);
      if !registrable {
        s := before;
        return false;
      }
      s := s.(scripts := s.scripts[job := script]);
      return true;
    }

    method EditScript(who: Account, job: JobId, script: Script) returns (ok: bool)
      requires Valid()
      modifies this
      ensures Valid() && ok == Edited(old(s), who, job, script).Some?
      ensures s == if ok then Edited(old(s), who, job, script).value else old(s)
    {
      hide Sound;
      var before := s;
      if Edited(s, who, job, script).Some? {
        EditSound(s, who, job, script);
      }
      if job !in s.editors || s.editors[job] != who || job !in s.scripts {
        return false;
      }
      var oldScript := s.scripts[job];
      s := s.(scripts := s.scripts[job := script]);
      var key := TransferKeyId(Hashed(job.owner, oldScript), Hashed(job.owner, script));
      if key.None? {
        s := before;
        return false;
      }
      s := s.(hashes := s.hashes[job := Hashed(job.owner, script)]);
      return true;
    }
  }
}
