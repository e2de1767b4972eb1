/**
 * The comment-verification system: the catalog of comment tasks the owner
 * publishes, the verification task a user takes from it with a code to put
 * in the comment, and the reward a verified comment earns. The three tables
 * are kept in memory; amounts are whole numbers.
 */
module Comments {
  import opened Wrappers
  import opened Strings
  import opened Columns

  datatype Status = Pending | Verified

  /** A row of `comment_verification_tasks`; `id` is its serial number. */
  datatype Task = Task(
    id: nat,
    userId: int,
    postUrl: string,
    platform: string,
    code: string,
    requiredText: string,
    status: Status,
    comment: Option<string>,
    reward: int)

  /** A row of `user_rewards`. */
  datatype Reward = Reward(userId: int, taskId: nat, amount: int, kind: string, status: string)

  /** A row of `active_comment_tasks`. */
  datatype CatalogTask = CatalogTask(
    id: nat,
    platform: string,
    postUrl: string,
    description: string,
    template: string,
    reward: int,
    maxParticipants: int,
    participants: int,
    status: string,
    createdBy: int)

  /** An entry of the list `get_active_tasks` returns. */
  datatype Listing = Listing(
    id: nat,
    platform: string,
    postUrl: string,
    description: string,
    template: string,
    reward: int,
    maxParticipants: int,
    participants: int,
    slots: int)

  /** The `task_data` dictionary of `create_verification_task`; an absent key is `None`. */
  datatype TaskRequest = TaskRequest(
    taskId: Option<int>,
    postUrl: Option<string>,
    platform: Option<string>,
    template: Option<string>,
    reward: Option<int>)

  datatype CreateResult = Created(code: string) | CreateFailed

  datatype VerifyResult = NotFound | AlreadyVerified | CodeMissing | Rewarded(amount: int)

  /** What `get_user_progress` reports. */
  datatype Progress = Progress(completed: nat, pending: nat, totalRewards: int)

  /** The three tables, each in insertion order, and the last number the
      `SERIAL` sequence of `comment_verification_tasks` has handed out. The
      sequence is not rolled back with a failed transaction, so it can run
      ahead of the table. */
  datatype Ledger = Ledger(tasks: seq<Task>, rewards: seq<Reward>, catalog: seq<CatalogTask>, taskSerial: nat)

  const DefaultTemplate: string := "شارك برأيك في هذا المنتج"
  const CommentReward: string := "comment_verification"
  const Approved: string := "approved"
  const Active: string := "active"

  // ---------------------------------------------------------------------------
  // Verification codes.

  predicate IsLowerHex(c: char) {
    '0' <= c <= '9' || 'a' <= c <= 'f'
  }

  predicate IsUpperHex(c: char) {
    '0' <= c <= '9' || 'A' <= c <= 'F'
  }

  /** `generate_unique_code`, given the hexadecimal MD5 digest it computes of
      the user id, the time and a random token: `CMT` and the digest's first
      eight characters in upper case. */
  function TaskCode(digest: string): string {
    "CMT" + Upper(if |digest| <= 8 then digest else digest[..8])
  }

  predicate WellFormedTaskCode(code: string) {
    |code| == 11 && code[..3] == "CMT" && forall i :: 3 <= i < 11 ==> IsUpperHex(code[i])
  }

  /** A digest (32 lower-case hexadecimal characters, or any 8 or more) gives
      `CMT` followed by 8 upper-case hexadecimal characters. */
  lemma TaskCodeWellFormed(digest: string)
    requires |digest| >= 8 && forall i :: 0 <= i < |digest| ==> IsLowerHex(digest[i])
    ensures WellFormedTaskCode(TaskCode(digest))
  {
    var code := TaskCode(digest);
    assert code == "CMT" + Upper(digest[..8]);
    forall i | 3 <= i < 11 ensures IsUpperHex(code[i]) {
      assert code[i] == UpperChar(digest[i - 3]);
    }
  }

  // ---------------------------------------------------------------------------
  // The catalog and `get_active_tasks`.

  /** A catalog task the query selects: active, and with a free place or no limit. */
  predicate IsOpen(c: CatalogTask) {
    c.status == Active && (c.participants < c.maxParticipants || c.maxParticipants == 0)
  }

  /** The rows of the query, newest first. Rows are created in the order of
      the table, so `ORDER BY created_at DESC` is the reverse of that order. */
  function ActiveRows(catalog: seq<CatalogTask>): seq<CatalogTask> {
    if |catalog| == 0 then []
    else
      var last := catalog[|catalog| - 1];
      (if IsOpen(last) then [last] else []) + ActiveRows(catalog[..|catalog| - 1])
  }

  /** The places left: the difference when there is a limit, 999 when there is none. */
  function Slots(c: CatalogTask): int {
    if c.maxParticipants > 0 then c.maxParticipants - c.participants else 999
  }

  /** Every listed row is an open row of the catalog. */
  lemma {:induction false} ActiveRowsAreOpen(catalog: seq<CatalogTask>)
    ensures forall x :: x in ActiveRows(catalog) ==> x in catalog && IsOpen(x)
  {
    if |catalog| > 0 {
      var prefix := catalog[..|catalog| - 1];
      ActiveRowsAreOpen(prefix);
      forall x | x in prefix ensures x in catalog {
        var j :| 0 <= j < |prefix| && prefix[j] == x;
        assert catalog[j] == x;
      }
    }
  }

  /** Every open row of the catalog is listed. */
  lemma {:induction false} OpenRowsListed(catalog: seq<CatalogTask>, k: nat)
    requires k < |catalog| && IsOpen(catalog[k])
    ensures catalog[k] in ActiveRows(catalog)
  {
    if k < |catalog| - 1 {
      var prefix := catalog[..|catalog| - 1];
      assert prefix[k] == catalog[k];
      OpenRowsListed(prefix, k);
    }
  }

  /** A catalog row is listed exactly when it is open. */
  lemma ListedIffOpen(catalog: seq<CatalogTask>, k: nat)
    requires k < |catalog|
    ensures catalog[k] in ActiveRows(catalog) <==> IsOpen(catalog[k])
  {
    ActiveRowsAreOpen(catalog);
    if IsOpen(catalog[k]) {
      OpenRowsListed(catalog, k);
    }
  }

  /** Catalog ids are the serial numbers 1, 2, ... in table order. */
  predicate SerialCatalog(catalog: seq<CatalogTask>) {
    forall k :: 0 <= k < |catalog| ==> catalog[k].id == k + 1
  }

  /** With serial ids, the listing is newest first: ids strictly decrease. */
  lemma {:induction false} ActiveRowsNewestFirst(catalog: seq<CatalogTask>)
    requires SerialCatalog(catalog)
    ensures forall a :: 0 <= a < |ActiveRows(catalog)| ==> 1 <= ActiveRows(catalog)[a].id <= |catalog|
    ensures forall a, b :: 0 <= a < b < |ActiveRows(catalog)| ==> ActiveRows(catalog)[a].id > ActiveRows(catalog)[b].id
  {
    if |catalog| > 0 {
      var prefix := catalog[..|catalog| - 1];
      assert SerialCatalog(prefix) by {
        forall k | 0 <= k < |prefix| ensures prefix[k].id == k + 1 {
          assert prefix[k] == catalog[k];
        }
      }
      ActiveRowsNewestFirst(prefix);
      var head := if IsOpen(catalog[|catalog| - 1]) then [catalog[|catalog| - 1]] else [];
      var tail := ActiveRows(prefix);
      var rows := ActiveRows(catalog);
      assert rows == head + tail;
      assert catalog[|catalog| - 1].id == |catalog|;
      forall a | 0 <= a < |rows| ensures 1 <= rows[a].id <= |catalog| {
        if a < |head| {
          assert rows[a] == catalog[|catalog| - 1];
        } else {
          assert rows[a] == tail[a - |head|];
        }
      }
      forall a, b | 0 <= a < b < |rows| ensures rows[a].id > rows[b].id {
        assert rows[b] == tail[b - |head|];
        if a < |head| {
          assert rows[a] == catalog[|catalog| - 1];
        } else {
          assert rows[a] == tail[a - |head|];
        }
      }
    }
  }

  /** The INSERT of `admin_add_comment_task`, after its arguments are parsed:
      the new row is active, has nobody yet, and takes the next serial id. */
  function AddCatalogOn(l: Ledger, platform: string, postUrl: string, description: string, template: string,
                        reward: int, maxParticipants: int, createdBy: int): (r: Option<Ledger>)
    ensures r.Some? <==> Fits(Some(platform), 50) && Fits(Some(postUrl), 500) && Fits(Some(description), 300) &&
                         Fits(Some(template), 200) && AmountFits(reward) && IntFits(maxParticipants)
    ensures r.Some? ==> (
      r.value.tasks == l.tasks && r.value.rewards == l.rewards &&
      |r.value.catalog| == |l.catalog| + 1 && r.value.catalog[..|l.catalog|] == l.catalog &&
      var c := r.value.catalog[|l.catalog|];
      c.id == |l.catalog| + 1 && c.participants == 0 && (IsOpen(c) <==> maxParticipants >= 0))
  {
    if Fits(Some(platform), 50) && Fits(Some(postUrl), 500) && Fits(Some(description), 300) &&
       Fits(Some(template), 200) && AmountFits(reward) && IntFits(maxParticipants)
    then
      var c := CatalogTask(|l.catalog| + 1, Cut(Some(platform), 50).value, Cut(Some(postUrl), 500).value,
                           Cut(Some(description), 300).value, Cut(Some(template), 200).value,
                           reward, maxParticipants, 0, Active, createdBy);
      Some(l.(catalog := l.catalog + [c]))
    else None
  }

  // ---------------------------------------------------------------------------
  // `create_verification_task`.

  function TemplateOf(req: TaskRequest): string {
    req.template.GetOr(DefaultTemplate)
  }

  /** No task has the code yet (the column is `UNIQUE`). */
  predicate CodeFree(tasks: seq<Task>, code: string) {
    forall i :: 0 <= i < |tasks| ==> tasks[i].code != code
  }

  /** The INSERT runs: the required keys are there (a missing one raises
      before the statement is sent) and the literal values fit their columns
      (PostgreSQL checks a literal against its column's length and precision
      while it plans the statement). Only a statement that runs draws the
      next serial number. */
  predicate Planned(req: TaskRequest) {
    req.postUrl.Some? && req.platform.Some? && req.reward.Some? &&
    Fits(req.postUrl, 500) && Fits(req.platform, 50) && Fits(Some(TemplateOf(req)), 200) &&
    AmountFits(req.reward.value)
  }

  /** The INSERT succeeds: it runs and the code is new. */
  predicate CanInsert(l: Ledger, req: TaskRequest, code: string) {
    Planned(req) && CodeFree(l.tasks, code)
  }

  /** The UPDATE succeeds: no counter it raises leaves the `INTEGER` range. */
  predicate CanJoin(catalog: seq<CatalogTask>, taskId: Option<int>) {
    taskId.Some? ==> forall k :: 0 <= k < |catalog| && catalog[k].id == taskId.value ==> IntFits(catalog[k].participants + 1)
  }

  /** `UPDATE active_comment_tasks SET current_participants = current_participants + 1 WHERE id = ...` */
  function Join(catalog: seq<CatalogTask>, taskId: int): seq<CatalogTask> {
    seq(|catalog|, k requires 0 <= k < |catalog| =>
      if catalog[k].id == taskId then catalog[k].(participants := catalog[k].participants + 1) else catalog[k])
  }

  /** The new pending task the INSERT writes, with the next serial number. */
  function NewTask(l: Ledger, userId: int, req: TaskRequest, code: string): Task
    requires req.postUrl.Some? && req.platform.Some? && req.reward.Some?
  {
    Task(l.taskSerial + 1, userId, Cut(req.postUrl, 500).value, Cut(req.platform, 50).value, code,
         Cut(Some(TemplateOf(req)), 200).value, Pending, None, req.reward.value)
  }

  /** `create_verification_task`: the INSERT and, when `task_id` is given, the
      UPDATE, in one transaction. A failure leaves the three tables as they
      were, but once the INSERT has run (a repeated code, a counter that
      overflows) its serial number is spent. */
  function CreateOn(l: Ledger, userId: int, req: TaskRequest, digest: string): (r: (Ledger, CreateResult))
    ensures r.1.Created? <==> CanInsert(l, req, TaskCode(digest)) && CanJoin(l.catalog, req.taskId)
    ensures r.0.taskSerial == if Planned(req) then l.taskSerial + 1 else l.taskSerial
    ensures r.1.CreateFailed? ==> r.0.tasks == l.tasks && r.0.rewards == l.rewards && r.0.catalog == l.catalog
    ensures r.1.Created? ==> (
      r.1.code == TaskCode(digest) &&
      |r.0.tasks| == |l.tasks| + 1 && r.0.tasks[..|l.tasks|] == l.tasks && r.0.rewards == l.rewards &&
      var t := r.0.tasks[|l.tasks|];
      t.userId == userId && t.code == r.1.code && t.status == Pending && t.comment == None &&
      t.id == r.0.taskSerial && t.reward == req.reward.value)
    ensures r.1.Created? ==> (
      |r.0.catalog| == |l.catalog| &&
      forall k :: 0 <= k < |l.catalog| ==> (
        r.0.catalog[k] == l.catalog[k].(participants := l.catalog[k].participants +
                                          if req.taskId == Some(l.catalog[k].id) then 1 else 0)))
  {
    var code := TaskCode(digest);
    if !Planned(req) then (l, CreateFailed)
    else if CodeFree(l.tasks, code) && CanJoin(l.catalog, req.taskId) then
      var catalog := if req.taskId.Some? then Join(l.catalog, req.taskId.value) else l.catalog;
      (Ledger(l.tasks + [NewTask(l, userId, req, code)], l.rewards, catalog, l.taskSerial + 1), Created(code))
    else (l.(taskSerial := l.taskSerial + 1), CreateFailed)
  }

  /** A code that collides spends a serial number: the next task created
      skips it, so task ids can have gaps. */
  lemma CollisionLeavesGap(l: Ledger, userId: int, req: TaskRequest, digest: string,
                           userId2: int, req2: TaskRequest, digest2: string)
    requires Planned(req) && !CodeFree(l.tasks, TaskCode(digest))
    requires var l1 := CreateOn(l, userId, req, digest).0; CreateOn(l1, userId2, req2, digest2).1.Created?
    ensures var l1 := CreateOn(l, userId, req, digest).0;
      CreateOn(l, userId, req, digest).1 == CreateFailed && l1.tasks == l.tasks &&
      CreateOn(l1, userId2, req2, digest2).0.tasks[|l.tasks|].id == l.taskSerial + 2
  {
  }

  // ---------------------------------------------------------------------------
  // `verify_comment_submission`.

  predicate Owns(t: Task, userId: int, code: string) {
    t.userId == userId && t.code == code
  }

  /** The row the SELECT finds: the first task of the user with the code. */
  function FindTask(tasks: seq<Task>, userId: int, code: string): (r: Option<nat>)
    ensures r.Some? ==> r.value < |tasks| && Owns(tasks[r.value], userId, code) &&
                        forall j :: 0 <= j < r.value ==> !Owns(tasks[j], userId, code)
    ensures r.None? ==> forall j :: 0 <= j < |tasks| ==> !Owns(tasks[j], userId, code)
  {
    if |tasks| == 0 then None
    else if Owns(tasks[0], userId, code) then Some(0)
    else match FindTask(tasks[1..], userId, code)
         case None => None
         case Some(i) => Some(i + 1)
  }

  /** The reward a verified task earns. */
  function RewardFor(t: Task): Reward {
    Reward(t.userId, t.id, t.reward, CommentReward, Approved)
  }

  /** `verify_comment_submission`: a task that is found, still pending, and
      whose code the comment contains is verified with the comment, and one
      approved reward of its amount is written. */
  function VerifyOn(l: Ledger, userId: int, code: string, comment: string): (r: (Ledger, VerifyResult))
    ensures !r.1.Rewarded? ==> r.0 == l
    ensures r.1.NotFound? <==> forall j :: 0 <= j < |l.tasks| ==> !Owns(l.tasks[j], userId, code)
    ensures r.1.Rewarded? ==> (
      Contains(comment, code) && r.0.catalog == l.catalog &&
      |r.0.rewards| == |l.rewards| + 1 && r.0.rewards[..|l.rewards|] == l.rewards &&
      r.0.rewards[|l.rewards|].amount == r.1.amount && r.0.rewards[|l.rewards|].status == Approved &&
      r.0.rewards[|l.rewards|].userId == userId)
  {
    match FindTask(l.tasks, userId, code)
    case None => (l, NotFound)
    case Some(i) =>
      var t := l.tasks[i];
      if t.status != Pending then (l, AlreadyVerified)
      else if !Contains(comment, code) then (l, CodeMissing)
      else
        var rewards := l.rewards + [RewardFor(t)];
        assert rewards[..|l.rewards|] == l.rewards;
        (l.(tasks := l.tasks[i := t.(status := Verified, comment := Some(comment))], rewards := rewards),
         Rewarded(t.reward))
  }

  /** The outcome for the user's task at index `i`: `AlreadyVerified` once it is
      verified, `CodeMissing` when the comment lacks the code, and otherwise the
      reward, with the task verified and the comment stored. */
  lemma VerifyCases(l: Ledger, userId: int, code: string, comment: string, i: nat)
    requires i < |l.tasks| && Owns(l.tasks[i], userId, code)
    requires forall j :: 0 <= j < |l.tasks| && j != i ==> !Owns(l.tasks[j], userId, code)
    ensures var r := VerifyOn(l, userId, code, comment);
      var t := l.tasks[i];
      (t.status == Verified ==> r == (l, AlreadyVerified)) &&
      (t.status == Pending && !Contains(comment, code) ==> r == (l, CodeMissing)) &&
      (t.status == Pending && Contains(comment, code) ==>
         r.1 == Rewarded(t.reward) &&
         r.0.tasks == l.tasks[i := t.(status := Verified, comment := Some(comment))] &&
         r.0.rewards == l.rewards + [RewardFor(t)])
  {
    assert FindTask(l.tasks, userId, code) == Some(i);
  }

  /** The same submission a second time is refused as already verified and
      writes no second reward. */
  lemma SecondSubmissionRefused(l: Ledger, userId: int, code: string, comment: string, comment2: string)
    requires VerifyOn(l, userId, code, comment).1.Rewarded?
    ensures var l2 := VerifyOn(l, userId, code, comment).0;
      VerifyOn(l2, userId, code, comment2) == (l2, AlreadyVerified)
  {
    var i := FindTask(l.tasks, userId, code).value;
    var l2 := VerifyOn(l, userId, code, comment).0;
    FindTaskSameOwners(l.tasks, l2.tasks, userId, code);
  }

  /** The SELECT finds the same row in two tables whose rows have the same owners and codes. */
  lemma {:induction false} FindTaskSameOwners(a: seq<Task>, b: seq<Task>, userId: int, code: string)
    requires |a| == |b| && forall k :: 0 <= k < |a| ==> a[k].userId == b[k].userId && a[k].code == b[k].code
    ensures FindTask(a, userId, code) == FindTask(b, userId, code)
  {
    if |a| > 0 {
      FindTaskSameOwners(a[1..], b[1..], userId, code);
    }
  }

  // ---------------------------------------------------------------------------
  // `get_user_progress`.

  /** `COUNT(*)` of the user's tasks with the status. */
  function CountStatus(tasks: seq<Task>, userId: int, s: Status): nat {
    if |tasks| == 0 then 0
    else CountStatus(tasks[..|tasks| - 1], userId, s) +
         if tasks[|tasks| - 1].userId == userId && tasks[|tasks| - 1].status == s then 1 else 0
  }

  /** `SUM(reward_amount)` of the user's approved rewards, 0 when there are none. */
  function RewardTotal(rewards: seq<Reward>, userId: int): int {
    if |rewards| == 0 then 0
    else RewardTotal(rewards[..|rewards| - 1], userId) +
         if rewards[|rewards| - 1].userId == userId && rewards[|rewards| - 1].status == Approved
         then rewards[|rewards| - 1].amount else 0
  }

  function ProgressOf(l: Ledger, userId: int): Progress {
    Progress(CountStatus(l.tasks, userId, Verified), CountStatus(l.tasks, userId, Pending), RewardTotal(l.rewards, userId))
  }

  /** Replacing one task changes the count by the difference the two rows make. */
  lemma {:induction false} CountStatusUpdate(tasks: seq<Task>, i: nat, t: Task, userId: int, s: Status)
    requires i < |tasks|
    ensures CountStatus(tasks[i := t], userId, s) + (if tasks[i].userId == userId && tasks[i].status == s then 1 else 0) ==
            CountStatus(tasks, userId, s) + (if t.userId == userId && t.status == s then 1 else 0)
  {
    var n := |tasks|;
    var u := tasks[i := t];
    assert u[..n - 1] == if i < n - 1 then tasks[..n - 1][i := t] else tasks[..n - 1];
    if i < n - 1 {
      CountStatusUpdate(tasks[..n - 1], i, t, userId, s);
    }
  }

  /** A rewarded submission moves one of the user's tasks from pending to
      completed and adds its amount to the user's total. */
  lemma ProgressAfterReward(l: Ledger, userId: int, code: string, comment: string)
    requires VerifyOn(l, userId, code, comment).1.Rewarded?
    ensures var r := VerifyOn(l, userId, code, comment);
      var p, p2 := ProgressOf(l, userId), ProgressOf(r.0, userId);
      p2.completed == p.completed + 1 && p2.pending + 1 == p.pending &&
      p2.totalRewards == p.totalRewards + r.1.amount
  {
    var i := FindTask(l.tasks, userId, code).value;
    var t := l.tasks[i];
    var t2 := t.(status := Verified, comment := Some(comment));
    CountStatusUpdate(l.tasks, i, t2, userId, Verified);
    CountStatusUpdate(l.tasks, i, t2, userId, Pending);
    var rewards := l.rewards + [RewardFor(t)];
    assert rewards[..|rewards| - 1] == l.rewards;
  }

  // ---------------------------------------------------------------------------
  // The invariant.

  /** Each task's number of rewards. */
  function RewardCount(rewards: seq<Reward>, taskId: nat): nat {
    if |rewards| == 0 then 0
    else RewardCount(rewards[..|rewards| - 1], taskId) + if rewards[|rewards| - 1].taskId == taskId then 1 else 0
  }

  /** The reward belongs to the task, to its user and with its amount. */
  predicate RewardOf(t: Task, r: Reward) {
    r.taskId == t.id && r.userId == t.userId && r.amount == t.reward && r.status == Approved
  }

  /** Task ids are numbers the sequence has handed out, in increasing order. */
  predicate IdsIncreasing(tasks: seq<Task>, serial: nat) {
    (forall i :: 0 <= i < |tasks| ==> 1 <= tasks[i].id <= serial) &&
    (forall i, j :: 0 <= i < j < |tasks| ==> tasks[i].id < tasks[j].id)
  }

  /** Every reward belongs to a task of the table. */
  predicate RewardsBelong(tasks: seq<Task>, rewards: seq<Reward>) {
    forall k :: 0 <= k < |rewards| ==> exists i :: 0 <= i < |tasks| && RewardOf(tasks[i], rewards[k])
  }

  /** Increasing ids, unique codes, every reward belonging to a task, and
      exactly one reward for each verified task and none for a pending one. */
  predicate LedgerValid(l: Ledger) {
    IdsIncreasing(l.tasks, l.taskSerial) &&
    (forall i, j :: 0 <= i < j < |l.tasks| ==> l.tasks[i].code != l.tasks[j].code) &&
    SerialCatalog(l.catalog) &&
    RewardsBelong(l.tasks, l.rewards) &&
    (forall i :: 0 <= i < |l.tasks| ==> RewardCount(l.rewards, l.tasks[i].id) == if l.tasks[i].status == Verified then 1 else 0)
  }

  /** No reward names a task beyond the table. */
  lemma {:induction false} NoRewardBeyond(rewards: seq<Reward>, taskId: nat)
    requires forall k :: 0 <= k < |rewards| ==> rewards[k].taskId < taskId
    ensures RewardCount(rewards, taskId) == 0
  {
    if |rewards| > 0 {
      NoRewardBeyond(rewards[..|rewards| - 1], taskId);
    }
  }

  lemma CreateKeepsValid(l: Ledger, userId: int, req: TaskRequest, digest: string)
    requires LedgerValid(l)
    ensures LedgerValid(CreateOn(l, userId, req, digest).0)
  {
    var r := CreateOn(l, userId, req, digest);
    if r.1.Created? {
      var catalog := r.0.catalog;
      assert SerialCatalog(catalog) by {
        forall k | 0 <= k < |catalog| ensures catalog[k].id == k + 1 {
          assert catalog[k].id == l.catalog[k].id;
        }
      }
      AppendedLedgerValid(l, NewTask(l, userId, req, TaskCode(digest)), r.0);
    } else {
      SameTablesValid(l, r.0);
    }
  }

  /** A new pending task with the next serial number and a new code keeps the invariant. */
  lemma AppendedLedgerValid(l: Ledger, t: Task, l2: Ledger)
    requires LedgerValid(l) && t.id == l.taskSerial + 1 && t.status == Pending && CodeFree(l.tasks, t.code)
    requires l2.tasks == l.tasks + [t] && l2.rewards == l.rewards && l2.taskSerial == t.id && SerialCatalog(l2.catalog)
    ensures LedgerValid(l2)
  {
    forall k | 0 <= k < |l.rewards| ensures l.rewards[k].taskId < t.id {
      var i :| 0 <= i < |l.tasks| && RewardOf(l.tasks[i], l.rewards[k]);
    }
    NoRewardBeyond(l.rewards, t.id);
    forall k | 0 <= k < |l2.rewards| ensures exists i :: 0 <= i < |l2.tasks| && RewardOf(l2.tasks[i], l2.rewards[k]) {
      var i :| 0 <= i < |l.tasks| && RewardOf(l.tasks[i], l.rewards[k]);
      assert l2.tasks[i] == l.tasks[i];
    }
    assert RewardsBelong(l2.tasks, l2.rewards);
    forall i | 0 <= i < |l2.tasks|
      ensures RewardCount(l2.rewards, l2.tasks[i].id) == if l2.tasks[i].status == Verified then 1 else 0
    {
      if i < |l.tasks| {
        assert l2.tasks[i] == l.tasks[i];
      }
    }
  }

  /** The same tables with a later serial number, or another catalog with serial ids, keep the invariant. */
  lemma SameTablesValid(l: Ledger, l2: Ledger)
    requires LedgerValid(l) && l2.tasks == l.tasks && l2.rewards == l.rewards
    requires l2.taskSerial >= l.taskSerial && SerialCatalog(l2.catalog)
    ensures LedgerValid(l2)
  {
  }

  lemma VerifyKeepsValid(l: Ledger, userId: int, code: string, comment: string)
    requires LedgerValid(l)
    ensures LedgerValid(VerifyOn(l, userId, code, comment).0)
  {
    var r := VerifyOn(l, userId, code, comment);
    if r.1.Rewarded? {
      var i := FindTask(l.tasks, userId, code).value;
      var t := l.tasks[i];
      VerifiedLedgerValid(l, i, t.(status := Verified, comment := Some(comment)), r.0);
    }
  }

  lemma VerifiedLedgerValid(l: Ledger, i: nat, t2: Task, l2: Ledger)
    requires LedgerValid(l) && i < |l.tasks| && l.tasks[i].status == Pending
    requires t2 == l.tasks[i].(status := Verified, comment := t2.comment)
    requires l2 == l.(tasks := l.tasks[i := t2], rewards := l.rewards + [RewardFor(l.tasks[i])])
    ensures LedgerValid(l2)
  {
    var rewards := l2.rewards;
    assert rewards[..|rewards| - 1] == l.rewards;
    forall k | 0 <= k < |rewards| ensures exists j :: 0 <= j < |l2.tasks| && RewardOf(l2.tasks[j], rewards[k]) {
      if k < |l.rewards| {
        var j :| 0 <= j < |l.tasks| && RewardOf(l.tasks[j], l.rewards[k]);
        assert RewardOf(l2.tasks[j], rewards[k]);
      } else {
        assert RewardOf(l2.tasks[i], rewards[k]);
      }
    }
    assert RewardsBelong(l2.tasks, rewards);
    forall j | 0 <= j < |l2.tasks|
      ensures RewardCount(rewards, l2.tasks[j].id) == if l2.tasks[j].status == Verified then 1 else 0
    {
      assert j != i ==> l.tasks[j].id != l.tasks[i].id;
    }
  }

  lemma AddCatalogKeepsValid(l: Ledger, platform: string, postUrl: string, description: string, template: string,
                             reward: int, maxParticipants: int, createdBy: int)
    requires LedgerValid(l)
    ensures var r := AddCatalogOn(l, platform, postUrl, description, template, reward, maxParticipants, createdBy);
      r.Some? ==> LedgerValid(r.value)
  {
    var r := AddCatalogOn(l, platform, postUrl, description, template, reward, maxParticipants, createdBy);
    if r.Some? {
      SameTablesValid(l, r.value);
    }
  }

  // ---------------------------------------------------------------------------
  // The system object.

  class CommentSystem {
    var tasks: seq<Task>
    var rewards: seq<Reward>
    var catalog: seq<CatalogTask>
    var taskSerial: nat

    function State(): Ledger
      reads this
    {
      Ledger(tasks, rewards, catalog, taskSerial)
    }

    ghost predicate Valid()
      reads this
    {
      LedgerValid(State())
    }

    constructor ()
      ensures Valid() && tasks == [] && rewards == [] && catalog == [] && taskSerial == 0
    {
      tasks := [];
      rewards := [];
      catalog := [];
      taskSerial := 0;
    }

    method AddCatalogTask(platform: string, postUrl: string, description: string, template: string,
                          reward: int, maxParticipants: int, createdBy: int) returns (ok: bool)
      requires Valid()
      modifies this
      ensures Valid()
      ensures var r := AddCatalogOn(old(State()), platform, postUrl, description, template, reward, maxParticipants, createdBy);
        ok == r.Some? && State() == r.GetOr(old(State()))
    {
      var r := AddCatalogOn(State(), platform, postUrl, description, template, reward, maxParticipants, createdBy);
      AddCatalogKeepsValid(State(), platform, postUrl, description, template, reward, maxParticipants, createdBy);
      if r.Some? {
        catalog := r.value.catalog;
      }
      ok := r.Some?;
    }

    method CreateVerificationTask(userId: int, req: TaskRequest, digest: string) returns (r: CreateResult)
      requires Valid()
      modifies this
      ensures Valid()
      ensures (State(), r) == CreateOn(old(State()), userId, req, digest)
    {
      CreateKeepsValid(State(), userId, req, digest);
      var code := TaskCode(digest);
      if !Planned(req) {
        return CreateFailed;
      }
      if !(CodeFree(tasks, code) && CanJoin(catalog, req.taskId)) {
        taskSerial := taskSerial + 1;
        return CreateFailed;
      }
      tasks := tasks + [NewTask(State(), userId, req, code)];
      taskSerial := taskSerial + 1;
      if req.taskId.Some? {
        catalog := Join(catalog, req.taskId.value);
      }
      r := Created(code);
    }

    method VerifyCommentSubmission(userId: int, code: string, comment: string) returns (r: VerifyResult)
      requires Valid()
      modifies this
      ensures Valid()
      ensures (State(), r) == VerifyOn(old(State()), userId, code, comment)
    {
      VerifyKeepsValid(State(), userId, code, comment);
      var found := FindTask(tasks, userId, code);
      if found.None? {
        return NotFound;
      }
      var i := found.value;
      var t := tasks[i];
      if t.status != Pending {
        return AlreadyVerified;
      }
      if !Contains(comment, code) {
        return CodeMissing;
      }
      tasks := tasks[i := t.(status := Verified, comment := Some(comment))];
      rewards := rewards + [RewardFor(t)];
      r := Rewarded(t.reward);
    }

    /** `get_active_tasks`: one entry per row of the query, with its places left. */
    method GetActiveTasks() returns (listings: seq<Listing>)
      ensures var rows := ActiveRows(catalog);
        |listings| == |rows| &&
        forall k :: 0 <= k < |rows| ==> (
          listings[k] == Listing(rows[k].id, rows[k].platform, rows[k].postUrl, rows[k].description, rows[k].template,
                                 rows[k].reward, rows[k].maxParticipants, rows[k].participants, Slots(rows[k])))
    {
      var rows := ActiveRows(catalog);
      listings := [];
      for k := 0 to |rows|
        invariant |listings| == k
        invariant forall j :: 0 <= j < k ==> (
          listings[j] == Listing(rows[j].id, rows[j].platform, rows[j].postUrl, rows[j].description, rows[j].template,
                                 rows[j].reward, rows[j].maxParticipants, rows[j].participants, Slots(rows[j])))
      {
        var row := rows[k];
        var slots := if row.maxParticipants > 0 then row.maxParticipants - row.participants else 999;
        listings := listings + [Listing(row.id, row.platform, row.postUrl, row.description, row.template,
                                        row.reward, row.maxParticipants, row.participants, slots)];
      }
    }
  }
}
