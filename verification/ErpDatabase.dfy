/** The ERP database as the protected transactions see it: rows under
    REPEATABLE READ, row locks held to commit, and writes that become visible
    only at commit.

    `FOR UPDATE` on a row that another transaction has changed since the
    snapshot fails, so a lock is granted only while the snapshot's row is the
    committed row. */
module ErpDatabase {
  import opened Basics

  type Tenant = int
  type GrantId = int
  type OrderId = int
  type LineId = int
  type Nonce = int
  type Token = int
  type TxnId = int

  /** The unique scope of one authorization attempt. */
  datatype Command = Command(tenant: Tenant, grant: GrantId, nonce: Nonce)

  datatype OrderState = Draft | ToApprove | Final | OtherState
  datatype AttemptState = AttemptPending | Executed | ApprovalRequired
  datatype ApprovalState = Pending | Approved | Rejected | Invalidated | Expired | Consumed

  /** The canonical business intent of one order: everything the proof binds.
      `lines` maps the key of each stored line to its content. */
  datatype Intent = Intent(
    order: OrderId, tenant: Tenant, grant: Option<GrantId>, command: Nonce,
    body: int, lines: map<Key, int>, state: OrderState, version: int)

  datatype Key =
    | OrderKey(order: OrderId)
    | LineKey(owner: OrderId, line: LineId)
    | AttemptKey(command: Command)
    | ApprovalKey(command: Command)
    | FenceKey(tenant: Tenant, grant: GrantId)
    | PolicyKey(tenant: Tenant)
    | EpochKey
    | GrantKey(grant: GrantId)
    | UserKey(user: int)

  /** `version` stands for the row version PostgreSQL creates on each update. */
  datatype Row =
    | Gone
    | OrderRow(version: int, tenant: Tenant, grantId: Option<GrantId>, delegated: bool,
               state: OrderState, nonce: Option<Nonce>, body: int)
    | LineRow(content: int)
    | AttemptRow(order: OrderId, attempt: AttemptState, validUntil: int)
    | ApprovalRow(subject: OrderId, approval: ApprovalState, intent: Intent, expiresAt: int)
    | FenceRow(revoked: bool)
    | PolicyRow(fenceVersion: int, revision: int, ready: bool, publication: Option<Token>)
    | EpochRow(epoch: int)
    | GrantRow(active: bool, validFrom: int, until: int)
    | UserRow(rights: int)

  type Db = map<Key, Row>

  function Get(db: Db, k: Key): Row {
    if k in db then db[k] else Gone
  }

  /** Versions of the rows that guard others; an absent row has version 0. */
  function Version(r: Row): int {
    match r
    case OrderRow(v, _, _, _, _, _, _) => v
    case EpochRow(v) => v
    case _ => 0
  }

  /** The row whose update must accompany every change of `k`: the parent order
      for a line, the local-authority epoch for users and grants. */
  function GuardOf(k: Key): Option<Key> {
    match k
    case LineKey(o, _) => Some(OrderKey(o))
    case GrantKey(_) => Some(EpochKey)
    case UserKey(_) => Some(EpochKey)
    case _ => None
  }

  function LinesOf(db: Db, o: OrderId): map<Key, int> {
    map k | k in db && k.LineKey? && k.owner == o && db[k].LineRow? :: db[k].content
  }

  function LineKeys(db: Db, o: OrderId): set<Key> {
    set k | k in db && k.LineKey? && k.owner == o && db[k].LineRow?
  }

  /** The intent built from an order row and the stored lines of that order. */
  function IntentOf(o: OrderId, r: Row, command: Nonce, db: Db): Intent
    requires r.OrderRow?
  {
    Intent(o, r.tenant, r.grantId, command, r.body, LinesOf(db, o), r.state, r.version)
  }

  lemma SameLines(a: Db, b: Db, o: OrderId)
    requires forall k :: GuardOf(k) == Some(OrderKey(o)) ==> Get(a, k) == Get(b, k)
    ensures LinesOf(a, o) == LinesOf(b, o)
  {
    forall k | k in LinesOf(a, o) || k in LinesOf(b, o)
      ensures k in LinesOf(a, o) && k in LinesOf(b, o) && LinesOf(a, o)[k] == LinesOf(b, o)[k]
    {
      assert GuardOf(k) == Some(OrderKey(o));
      assert Get(a, k) == Get(b, k);
    }
  }
}
