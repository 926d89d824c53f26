/**
  The hash-chained audit log: what an intact chain is, what it protects, and what
  verification and repair do. SHA-256 in hexadecimal (section 6.2 of FIPS 180-4)
  is a parameter `h`. No property assumes that it has no collisions: where one
  would matter, the conclusion exhibits it.
*/
module AuditChain {
  import opened Wrappers

  type Hash = string -> string

  /** The `audit_action` enumeration. */
  datatype AuditAction =
    | UserLogin | UserLogout | UserLoginFailed | UserCreated | UserDeleted | UserUpdated
    | HostRegistered | HostRemoved | HostUpdated
    | GroupCreated | GroupDeleted | GroupMembershipChanged
    | PatchJobCreated | PatchJobCancelled | PatchJobRollback
    | MaintenanceWindowCreated | MaintenanceWindowUpdated | MaintenanceWindowDeleted
    | CertificateIssued | CertificateRenewed | CertificateRevoked | CertificateDownloaded
    | ConfigChanged | DiscoveryScanStarted | AuditIntegrityVerified | EmailNotificationSent
    | PatchJobCompleted | PatchJobFailed | MaintenanceWindowReminder
    | HealthCheckCreated | HealthCheckUpdated | HealthCheckDeleted | CertificateReissued
    | OidcConfigUpdated | SmtpConfigUpdated | IpWhitelistUpdated
    | OidcTestPerformed | OidcDiscoverPerformed
    | CrlStatusChanged | CrlStaleDetected | CrlInvalid
    | UpgradeTriggered | BatchUpgradeTriggered | AuditChainRepaired | RebootRefused

  function Word(action: AuditAction): string {
    match action
    case UserLogin => "user_login"
    case UserLogout => "user_logout"
    case UserLoginFailed => "user_login_failed"
    case UserCreated => "user_created"
    case UserDeleted => "user_deleted"
    case UserUpdated => "user_updated"
    case HostRegistered => "host_registered"
    case HostRemoved => "host_removed"
    case HostUpdated => "host_updated"
    case GroupCreated => "group_created"
    case GroupDeleted => "group_deleted"
    case GroupMembershipChanged => "group_membership_changed"
    case PatchJobCreated => "patch_job_created"
    case PatchJobCancelled => "patch_job_cancelled"
    case PatchJobRollback => "patch_job_rollback"
    case MaintenanceWindowCreated => "maintenance_window_created"
    case MaintenanceWindowUpdated => "maintenance_window_updated"
    case MaintenanceWindowDeleted => "maintenance_window_deleted"
    case CertificateIssued => "certificate_issued"
    case CertificateRenewed => "certificate_renewed"
    case CertificateRevoked => "certificate_revoked"
    case CertificateDownloaded => "certificate_downloaded"
    case ConfigChanged => "config_changed"
    case DiscoveryScanStarted => "discovery_scan_started"
    case AuditIntegrityVerified => "audit_integrity_verified"
    case EmailNotificationSent => "email_notification_sent"
    case PatchJobCompleted => "patch_job_completed"
    case PatchJobFailed => "patch_job_failed"
    case MaintenanceWindowReminder => "maintenance_window_reminder"
    case HealthCheckCreated => "health_check_created"
    case HealthCheckUpdated => "health_check_updated"
    case HealthCheckDeleted => "health_check_deleted"
    case CertificateReissued => "certificate_reissued"
    case OidcConfigUpdated => "oidc_config_updated"
    case SmtpConfigUpdated => "smtp_config_updated"
    case IpWhitelistUpdated => "ip_whitelist_updated"
    case OidcTestPerformed => "oidc_test_performed"
    case OidcDiscoverPerformed => "oidc_discover_performed"
    case CrlStatusChanged => "crl_status_changed"
    case CrlStaleDetected => "crl_stale_detected"
    case CrlInvalid => "crl_invalid"
    case UpgradeTriggered => "upgrade_triggered"
    case BatchUpgradeTriggered => "batch_upgrade_triggered"
    case AuditChainRepaired => "audit_chain_repaired"
    case RebootRefused => "reboot_refused"
  }

  predicate HexDigit(c: char) {
    '0' <= c <= '9' || 'a' <= c <= 'f'
  }

  /** No action word could be mistaken for the beginning of a hash. */
  lemma WordIsNotHex(action: AuditAction)
    ensures NotHex(Word(action))
  {
    hide Word, NotHex;
    if Inventory(action) {
      InventoryWords(action);
    } else if Operations(action) {
      OperationsWords(action);
    } else {
      OtherWords(action);
    }
  }

  predicate NotHex(word: string) {
    |word| >= 3 && !(HexDigit(word[0]) && HexDigit(word[1]) && HexDigit(word[2]))
  }

  /** Actions on users, hosts and groups. */
  predicate Inventory(action: AuditAction) {
    match action
    case UserLogin | UserLogout | UserLoginFailed | UserCreated | UserDeleted | UserUpdated => true
    case HostRegistered | HostRemoved | HostUpdated => true
    case GroupCreated | GroupDeleted | GroupMembershipChanged => true
    case _ => false
  }

  /** Actions on jobs, windows, certificates and health checks. */
  predicate Operations(action: AuditAction) {
    match action
    case PatchJobCreated | PatchJobCancelled | PatchJobRollback | PatchJobCompleted | PatchJobFailed => true
    case MaintenanceWindowCreated | MaintenanceWindowUpdated | MaintenanceWindowDeleted | MaintenanceWindowReminder => true
    case CertificateIssued | CertificateRenewed | CertificateRevoked | CertificateDownloaded | CertificateReissued => true
    case HealthCheckCreated | HealthCheckUpdated | HealthCheckDeleted => true
    case _ => false
  }

  lemma InventoryWords(action: AuditAction)
    requires Inventory(action)
    ensures NotHex(Word(action))
  {
  }

  lemma OperationsWords(action: AuditAction)
    requires Operations(action)
    ensures NotHex(Word(action))
  {
  }

  lemma OtherWords(action: AuditAction)
    requires !Inventory(action) && !Operations(action)
    ensures NotHex(Word(action))
  {
  }

  /** An audit event, with the columns as the strings that are hashed. */
  datatype Event = Event(
    action: AuditAction,
    actorUserId: Option<string>,
    actorUsername: Option<string>,
    targetType: Option<string>,
    targetId: Option<string>,
    details: string,
    ipAddress: Option<string>,
    requestId: Option<string>,
    createdAt: string)

  datatype Row = Row(id: int, event: Event, rowHash: string, prevHash: string)

  /** What follows the previous hash in the hashed text. */
  function Text(e: Event): string {
    Word(e.action) + Rest(e)
  }

  function Rest(e: Event): string {
    e.actorUserId.GetOr("") + e.actorUsername.GetOr("") + e.targetType.GetOr("") + e.targetId.GetOr("")
    + e.details + e.ipAddress.GetOr("") + e.requestId.GetOr("") + e.createdAt
  }

  function RowHash(h: Hash, prev: string, e: Event): string {
    h(prev + Text(e))
  }

  /** The row `write_audit_row` inserts after a row with hash `prev`. */
  function Chained(h: Hash, prev: string, id: int, e: Event): Row {
    Row(id, e, RowHash(h, prev, e), prev)
  }

  /** The hash the row at `i` must link to. */
  function PrevHash(rows: seq<Row>, i: nat): string
    requires i <= |rows|
  {
    if i == 0 then "" else rows[i - 1].rowHash
  }

  predicate Linked(h: Hash, rows: seq<Row>, i: nat)
    requires i < |rows|
  {
    rows[i].prevHash == PrevHash(rows, i) && rows[i].rowHash == RowHash(h, rows[i].prevHash, rows[i].event)
  }

  predicate Intact(h: Hash, rows: seq<Row>) {
    forall i :: 0 <= i < |rows| ==> Linked(h, rows, i)
  }

  lemma IntactPrefix(h: Hash, rows: seq<Row>, k: nat)
    requires Intact(h, rows) && k <= |rows|
    ensures Intact(h, rows[..k])
  {
    forall i | 0 <= i < k ensures Linked(h, rows[..k], i) {
      assert Linked(h, rows, i);
    }
  }

  lemma IntactExtends(h: Hash, rows: seq<Row>, id: int, e: Event)
    requires Intact(h, rows)
    ensures Intact(h, rows + [Chained(h, PrevHash(rows, |rows|), id, e)])
  {
    var longer := rows + [Chained(h, PrevHash(rows, |rows|), id, e)];
    forall i | 0 <= i < |longer| ensures Linked(h, longer, i) {
      if i < |rows| {
        assert Linked(h, rows, i);
      }
    }
  }

  // ---------------------------------------------------------------------------
  // What an intact chain protects
  // ---------------------------------------------------------------------------

  /** SHA-256 in hexadecimal: 64 digits, whatever the input. */
  ghost predicate HexDigest(h: Hash) {
    forall s :: |h(s)| == 64 && forall k :: 0 <= k < 64 ==> HexDigit(h(s)[k])
  }

  function Preimage(row: Row): string {
    row.prevHash + Text(row.event)
  }

  /** Two rows, one of each chain, whose different hashed texts have the same hash. */
  ghost predicate Collision(h: Hash, a: seq<Row>, b: seq<Row>) {
    exists i, j :: 0 <= i < |a| && 0 <= j < |b|
                   && Preimage(a[i]) != Preimage(b[j]) && h(Preimage(a[i])) == h(Preimage(b[j]))
  }

  predicate SameRecord(a: Row, b: Row) {
    a.prevHash == b.prevHash && a.rowHash == b.rowHash && Text(a.event) == Text(b.event)
  }

  predicate SameHistory(a: seq<Row>, b: seq<Row>) {
    |a| == |b| && forall i :: 0 <= i < |a| ==> SameRecord(a[i], b[i])
  }

  /** A first row's text cannot be a later row's previous hash and text run together. */
  lemma TextIsNotHashAndText(first: Event, hash: string, later: Event)
    requires |hash| == 64 && forall k :: 0 <= k < 64 ==> HexDigit(hash[k])
    ensures Text(first) != hash + Text(later)
  {
    hide Word, Rest;
    WordIsNotHex(first.action);
    var word := Word(first.action);
    if Text(first) == hash + Text(later) {
      assert forall k :: 0 <= k < 3 ==> word[k] == Text(first)[k] == hash[k];
      assert false;
    }
  }

  lemma SamePreimage(h: Hash, a: seq<Row>, b: seq<Row>)
    requires HexDigest(h) && Intact(h, a) && Intact(h, b) && a != [] && b != []
    requires a[|a| - 1].rowHash == b[|b| - 1].rowHash
    requires Preimage(a[|a| - 1]) == Preimage(b[|b| - 1])
    ensures |a| == 1 <==> |b| == 1
    ensures SameRecord(a[|a| - 1], b[|b| - 1])
  {
    hide Text, RowHash;
    var x, y := a[|a| - 1], b[|b| - 1];
    assert Linked(h, a, |a| - 1) && Linked(h, b, |b| - 1);
    if |a| > 1 {
      assert Linked(h, a, |a| - 2);
      HashIsDigest(h, a[|a| - 2]);
    }
    if |b| > 1 {
      assert Linked(h, b, |b| - 2);
      HashIsDigest(h, b[|b| - 2]);
    }
    if |a| == 1 && |b| > 1 {
      assert "" + Text(x.event) == Text(x.event);
      TextIsNotHashAndText(x.event, y.prevHash, y.event);
    } else if |a| > 1 && |b| == 1 {
      assert "" + Text(y.event) == Text(y.event);
      TextIsNotHashAndText(y.event, x.prevHash, x.event);
    } else {
      assert |x.prevHash| == |y.prevHash|;
      assert x.prevHash == Preimage(x)[..|x.prevHash|] && Text(x.event) == Preimage(x)[|x.prevHash|..];
      assert y.prevHash == Preimage(y)[..|y.prevHash|] && Text(y.event) == Preimage(y)[|y.prevHash|..];
    }
  }

  lemma HashIsDigest(h: Hash, row: Row)
    requires HexDigest(h) && row.rowHash == RowHash(h, row.prevHash, row.event)
    ensures |row.rowHash| == 64 && forall k :: 0 <= k < 64 ==> HexDigit(row.rowHash[k])
  {
  }

  /**
    The last hash pins the whole history: two intact chains that end in the same
    hash record the same texts in the same order and number, or they exhibit a
    collision of the hash. Not even removing rows from the front goes unnoticed.
  */
  lemma {:induction false} LastHashPinsHistory(h: Hash, a: seq<Row>, b: seq<Row>)
    requires HexDigest(h) && Intact(h, a) && Intact(h, b)
    requires a != [] && b != [] && a[|a| - 1].rowHash == b[|b| - 1].rowHash
    ensures SameHistory(a, b) || Collision(h, a, b)
    decreases |a|
  {
    hide Text, HexDigest;
    var m, n := |a| - 1, |b| - 1;
    assert Linked(h, a, m) && Linked(h, b, n);
    if Preimage(a[m]) != Preimage(b[n]) {
      assert Collision(h, a, b);
    } else {
      SamePreimage(h, a, b);
      if m > 0 {
        IntactPrefix(h, a, m);
        IntactPrefix(h, b, n);
        LastHashPinsHistory(h, a[..m], b[..n]);
        if !SameHistory(a[..m], b[..n]) {
          var i, j :| 0 <= i < m && 0 <= j < n && Preimage(a[..m][i]) != Preimage(b[..n][j])
                      && h(Preimage(a[..m][i])) == h(Preimage(b[..n][j]));
          assert Preimage(a[i]) != Preimage(b[j]) && h(Preimage(a[i])) == h(Preimage(b[j]));
        } else {
          assert forall i :: 0 <= i < m ==> a[..m][i] == a[i] && b[..n][i] == b[i];
        }
      }
    }
  }

  /** An intact chain with one more row. */
  function Appended(h: Hash, rows: seq<Row>, id: int, e: Event): (longer: seq<Row>)
    requires Intact(h, rows)
    ensures Intact(h, longer)
    ensures |longer| == |rows| + 1 && longer[..|rows|] == rows
    ensures longer[|rows|].id == id && longer[|rows|].event == e
  {
    IntactExtends(h, rows, id, e);
    rows + [Chained(h, PrevHash(rows, |rows|), id, e)]
  }

  /** The chain of a list of events, as the writers append them. */
  function Log(h: Hash, events: seq<Event>): (rows: seq<Row>)
    ensures |rows| == |events|
    ensures forall i :: 0 <= i < |events| ==> rows[i].event == events[i]
    ensures Intact(h, rows)
  {
    hide Appended, Linked;
    if events == [] then []
    else
      var n := |events| - 1;
      var front := Log(h, events[..n]);
      var rows := Appended(h, front, n + 1, events[n]);
      assert forall i :: 0 <= i < n ==> rows[i] == rows[..n][i];
      rows
  }

  /**
    Only the run-together text is protected, not the borders of the fields:
    moving text across a border changes the events but no hash of the chain.
  */
  lemma FieldBordersAreNotHashed(h: Hash)
    ensures exists a: seq<Row>, b: seq<Row> ::
              Intact(h, a) && Intact(h, b) && |a| == |b| == 1
              && a[0].event != b[0].event && a[0].rowHash == b[0].rowHash
  {
    hide Word;
    var e := Event(UserLogin, None, None, Some("host"), None, "", None, None, "");
    var f := e.(targetType := None, targetId := Some("host"));
    assert Rest(e) == "host" && Rest(f) == "host";
    var a, b := Log(h, [e]), Log(h, [f]);
    assert Linked(h, a, 0) && Linked(h, b, 0);
    assert a[0].event == e && b[0].event == f;
  }

  /** Chains over events with equal texts have equal hashes throughout. */
  lemma {:induction false} EqualTextsEqualHashes(h: Hash, a: seq<Row>, b: seq<Row>, i: nat)
    requires Intact(h, a) && Intact(h, b) && |a| == |b| && i < |a|
    requires forall k :: 0 <= k < |a| ==> Text(a[k].event) == Text(b[k].event)
    ensures SameRecord(a[i], b[i])
  {
    hide Text;
    assert Linked(h, a, i) && Linked(h, b, i);
    if i > 0 {
      EqualTextsEqualHashes(h, a, b, i - 1);
    }
  }
}
