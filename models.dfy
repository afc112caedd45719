/** The domain records: accounts with their child-account lists, fax usage,
    number ports and generic usage records. A clock reading `now` (seconds)
    stands for `datetime.now()`; period bounds handed in by callers are kept as
    their ISO-8601 text. Money and quantities are exact reals. */
module Models {
  import opened Common

  // ---------------------------------------------------------------------------
  // Status enumerations and their wire values
  // ---------------------------------------------------------------------------

  datatype AccountStatus = Active | Inactive | Suspended | Cancelled
  {
    function Value(): string {
      match this
      case Active => "active"
      case Inactive => "inactive"
      case Suspended => "suspended"
      case Cancelled => "cancelled"
    }
  }

  /** `AccountStatus(value)`: None where Python raises ValueError. */
  function AccountStatusOf(s: string): (r: Option<AccountStatus>)
    ensures r.Some? ==> r.value.Value() == s
  {
    if s == "active" then Some(Active)
    else if s == "inactive" then Some(Inactive)
    else if s == "suspended" then Some(Suspended)
    else if s == "cancelled" then Some(AccountStatus.Cancelled)
    else None
  }

  datatype PortingStatus = Pending | InProgress | Completed | Failed | Cancelled
  {
    function Value(): string {
      match this
      case Pending => "pending"
      case InProgress => "in_progress"
      case Completed => "completed"
      case Failed => "failed"
      case Cancelled => "cancelled"
    }
  }

  function PortingStatusOf(s: string): (r: Option<PortingStatus>)
    ensures r.Some? ==> r.value.Value() == s
  {
    if s == "pending" then Some(Pending)
    else if s == "in_progress" then Some(InProgress)
    else if s == "completed" then Some(Completed)
    else if s == "failed" then Some(Failed)
    else if s == "cancelled" then Some(PortingStatus.Cancelled)
    else None
  }

  datatype UsageDataType = FaxPagesSent | FaxPagesReceived | PhoneMinutes | SmsMessages | DataTransfer
  {
    function Value(): string {
      match this
      case FaxPagesSent => "fax_pages_sent"
      case FaxPagesReceived => "fax_pages_received"
      case PhoneMinutes => "phone_minutes"
      case SmsMessages => "sms_messages"
      case DataTransfer => "data_transfer"
    }
  }

  function UsageDataTypeOf(s: string): (r: Option<UsageDataType>)
    ensures r.Some? ==> r.value.Value() == s
  {
    if s == "fax_pages_sent" then Some(FaxPagesSent)
    else if s == "fax_pages_received" then Some(FaxPagesReceived)
    else if s == "phone_minutes" then Some(PhoneMinutes)
    else if s == "sms_messages" then Some(SmsMessages)
    else if s == "data_transfer" then Some(DataTransfer)
    else None
  }

  /** Every member is recovered from its wire value, so no two members share one. */
  lemma StatusValuesRoundTrip(a: AccountStatus, p: PortingStatus, u: UsageDataType)
    ensures AccountStatusOf(a.Value()) == Some(a)
    ensures PortingStatusOf(p.Value()) == Some(p)
    ensures UsageDataTypeOf(u.Value()) == Some(u)
  {
  }

  lemma StatusValuesInjective(a1: AccountStatus, a2: AccountStatus, p1: PortingStatus, p2: PortingStatus,
                              u1: UsageDataType, u2: UsageDataType)
    ensures a1.Value() == a2.Value() ==> a1 == a2
    ensures p1.Value() == p2.Value() ==> p1 == p2
    ensures u1.Value() == u2.Value() ==> u1 == u2
  {
    StatusValuesRoundTrip(a1, p1, u1);
    StatusValuesRoundTrip(a2, p2, u2);
  }

  // ---------------------------------------------------------------------------
  // Child-account lists
  // ---------------------------------------------------------------------------

  /** The child list after `add_child_account(id)`: appended only when absent. */
  function WithChild(cs: seq<string>, id: string): seq<string> {
    if id in cs then cs else cs + [id]
  }

  /** The position of the first occurrence of `id`. */
  function FirstIndex(cs: seq<string>, id: string): (k: nat)
    requires id in cs
    ensures k < |cs| && cs[k] == id && id !in cs[..k]
  {
    if cs[0] == id then 0
    else
      var k := 1 + FirstIndex(cs[1..], id);
      assert cs[..k] == [cs[0]] + cs[1..][..k - 1];
      k
  }

  /** Any position before which `id` does not occur is the first one. */
  lemma {:induction false} FirstIndexUnique(cs: seq<string>, id: string, k: nat)
    requires k < |cs| && cs[k] == id && id !in cs[..k]
    ensures FirstIndex(cs, id) == k
  {
    var f := FirstIndex(cs, id);
    assert forall i :: 0 <= i < k ==> cs[..k][i] == cs[i];
    assert forall i :: 0 <= i < f ==> cs[..f][i] == cs[i];
  }

  /** The child list after `remove_child_account(id)`: the first occurrence
      goes, as `list.remove` does. */
  function WithoutChild(cs: seq<string>, id: string): seq<string> {
    if id in cs then
      var k := FirstIndex(cs, id);
      cs[..k] + cs[k + 1..]
    else cs
  }

  /** Adding keeps a list free of duplicates and always leaves `id` in it;
      adding a present id changes nothing. */
  lemma {:induction false} AddKeepsDistinct(cs: seq<string>, id: string)
    requires Distinct(cs)
    ensures Distinct(WithChild(cs, id))
    ensures id in WithChild(cs, id)
    ensures id in cs ==> WithChild(cs, id) == cs
    ensures id !in cs ==> |WithChild(cs, id)| == |cs| + 1
  {
    if id !in cs {
      var r := cs + [id];
      forall i, j | 0 <= i < j < |r| ensures r[i] != r[j] {
        if j == |cs| {
          assert r[i] == cs[i];
        }
      }
    }
  }

  /** Removal takes out one copy of `id` and keeps everything else. */
  lemma {:induction false} RemoveTakesOneCopy(cs: seq<string>, id: string)
    ensures id in cs ==> multiset(WithoutChild(cs, id)) == multiset(cs) - multiset{id}
    ensures id !in cs ==> WithoutChild(cs, id) == cs
  {
    if id in cs {
      var k := FirstIndex(cs, id);
      assert cs == cs[..k] + [id] + cs[k + 1..];
      assert multiset(cs) == multiset(cs[..k]) + multiset{id} + multiset(cs[k + 1..]);
    }
  }

  /** On a duplicate-free list, removal leaves `id` out entirely and the list
      stays duplicate-free. */
  lemma {:induction false} RemoveFromDistinct(cs: seq<string>, id: string)
    requires Distinct(cs)
    ensures id !in WithoutChild(cs, id)
    ensures Distinct(WithoutChild(cs, id))
  {
    if id in cs {
      var k := FirstIndex(cs, id);
      var r := WithoutChild(cs, id);
      SkipOne(cs, k, r);
      forall i | 0 <= i < |r| ensures r[i] != id {
        assert r[i] == cs[if i < k then i else i + 1];
      }
      forall i, j | 0 <= i < j < |r| ensures r[i] != r[j] {
        assert r[i] == cs[if i < k then i else i + 1];
        assert r[j] == cs[if j < k then j else j + 1];
      }
    }
  }

  /** Cutting position `k` out of a list shifts the later elements down by one. */
  lemma SkipOne(cs: seq<string>, k: nat, r: seq<string>)
    requires k < |cs| && r == cs[..k] + cs[k + 1..]
    ensures |r| == |cs| - 1
    ensures forall i :: 0 <= i < |r| ==> r[i] == cs[if i < k then i else i + 1]
  {
  }

  /** Adding a fresh id and removing it again restores the original list. */
  lemma {:induction false} AddThenRemove(cs: seq<string>, id: string)
    requires id !in cs
    ensures WithoutChild(WithChild(cs, id), id) == cs
  {
    var r := cs + [id];
    var k := FirstIndex(r, id);
    assert forall i :: 0 <= i < |cs| ==> r[i] == cs[i];
    assert r[..k] == cs;
  }

  // ---------------------------------------------------------------------------
  // Accounts
  // ---------------------------------------------------------------------------

  /** The part of an account that `to_dict` sends and `from_dict` reads. */
  datatype AccountRecord = AccountRecord(
    accountId: string, accountName: string, childAccounts: seq<string>,
    status: AccountStatus, createdDate: real, lastUpdated: real)

  class OpenTextAccount {
    var accountId: string
    var accountName: string
    var childAccounts: seq<string>
    var status: AccountStatus
    var createdDate: real
    var lastUpdated: real

    function Record(): AccountRecord
      reads this
    {
      AccountRecord(accountId, accountName, childAccounts, status, createdDate, lastUpdated)
    }

    constructor FromRecord(r: AccountRecord)
      ensures Record() == r
    {
      accountId := r.accountId;
      accountName := r.accountName;
      childAccounts := r.childAccounts;
      status := r.status;
      createdDate := r.createdDate;
      lastUpdated := r.lastUpdated;
    }

    /** Appends a new child and stamps the account; an id already present
        leaves the account untouched. */
    method AddChildAccount(childAccountId: string, now: real)
      modifies this
      ensures childAccounts == WithChild(old(childAccounts), childAccountId)
      ensures lastUpdated == if childAccountId in old(childAccounts) then old(lastUpdated) else now
      ensures Record() == old(Record()).(childAccounts := childAccounts, lastUpdated := lastUpdated)
    {
      if childAccountId !in childAccounts {
        childAccounts := childAccounts + [childAccountId];
        lastUpdated := now;
      }
    }

    /** Removes the first occurrence of a present child and stamps the
        account; an absent id leaves the account untouched. */
    method RemoveChildAccount(childAccountId: string, now: real)
      modifies this
      ensures childAccounts == WithoutChild(old(childAccounts), childAccountId)
      ensures lastUpdated == if childAccountId in old(childAccounts) then now else old(lastUpdated)
      ensures Record() == old(Record()).(childAccounts := childAccounts, lastUpdated := lastUpdated)
    {
      if childAccountId in childAccounts {
        // the scan `list.remove` performs
        var k := 0;
        while childAccounts[k] != childAccountId
          invariant 0 <= k < |childAccounts|
          invariant childAccountId !in childAccounts[..k]
          invariant childAccountId in childAccounts[k..]
          decreases |childAccounts| - k
        {
          assert childAccounts[k..] == [childAccounts[k]] + childAccounts[k + 1..];
          assert childAccounts[..k + 1] == childAccounts[..k] + [childAccounts[k]];
          k := k + 1;
        }
        FirstIndexUnique(childAccounts, childAccountId, k);
        childAccounts := childAccounts[..k] + childAccounts[k + 1..];
        lastUpdated := now;
      }
    }
  }

  // ---------------------------------------------------------------------------
  // Fax usage
  // ---------------------------------------------------------------------------

  datatype FaxUsageRecord = FaxUsageRecord(
    accountId: string, pagesSent: int, pagesReceived: int,
    periodStart: string, periodEnd: string, costPerPage: real, totalCost: real)
  {
    function TotalPages(): (n: int)
      ensures n - pagesReceived == pagesSent
    {
      pagesSent + pagesReceived
    }
  }

  class FaxUsage {
    var accountId: string
    var pagesSent: int
    var pagesReceived: int
    var periodStart: string
    var periodEnd: string
    var costPerPage: real
    var totalCost: real

    function Record(): FaxUsageRecord
      reads this
    {
      FaxUsageRecord(accountId, pagesSent, pagesReceived, periodStart, periodEnd, costPerPage, totalCost)
    }

    constructor FromRecord(r: FaxUsageRecord)
      ensures Record() == r
    {
      accountId := r.accountId;
      pagesSent := r.pagesSent;
      pagesReceived := r.pagesReceived;
      periodStart := r.periodStart;
      periodEnd := r.periodEnd;
      costPerPage := r.costPerPage;
      totalCost := r.totalCost;
    }

    function CalculateTotalPages(): (n: int)
      reads this
      ensures n == Record().TotalPages()
    {
      pagesSent + pagesReceived
    }

    /** Prices every page, sent or received, at the per-page cost. */
    method UpdateCost()
      modifies this
      ensures totalCost == (pagesSent + pagesReceived) as real * costPerPage
      ensures Record() == old(Record()).(totalCost := totalCost)
    {
      var totalPages := CalculateTotalPages();
      totalCost := totalPages as real * costPerPage;
    }
  }

  // ---------------------------------------------------------------------------
  // Number porting
  // ---------------------------------------------------------------------------

  /** The notes after `fail_port(reason)`: a `Failed:` line, on a new line
      when there were notes already. */
  function FailedNotes(notes: string, reason: string): string {
    if notes != "" then notes + "\nFailed: " + reason else "Failed: " + reason
  }

  /** The old notes are kept as a prefix, the reason closes the notes, and a
      newline separates them exactly when there were old notes. */
  lemma {:induction false} FailedNotesShape(notes: string, reason: string)
    ensures var r := FailedNotes(notes, reason);
            && notes <= r
            && |r| == |notes| + (if notes == "" then 0 else 1) + |"Failed: "| + |reason|
            && r[|r| - |reason|..] == reason
            && r[|notes|..] == (if notes == "" then "" else "\n") + "Failed: " + reason
  {
    var r := FailedNotes(notes, reason);
    var tail := (if notes == "" then "" else "\n") + "Failed: " + reason;
    assert r == notes + tail;
    assert r[|notes|..] == tail;
    assert r[|r| - |reason|..] == reason;
  }

  /** Two failures in a row leave two lines, oldest first. */
  lemma TwoFailures(r1: string, r2: string)
    ensures FailedNotes(FailedNotes("", r1), r2) == "Failed: " + r1 + "\nFailed: " + r2
  {
  }

  datatype PortingRecord = PortingRecord(
    phoneNumber: string, status: PortingStatus, carrier: string, accountId: string,
    portDate: Option<real>, requestDate: real, completionDate: Option<real>,
    notes: string, documents: seq<string>)

  class NumberPorting {
    var phoneNumber: string
    var status: PortingStatus
    var carrier: string
    var accountId: string
    var portDate: Option<real>
    var requestDate: real
    var completionDate: Option<real>
    var notes: string
    var documents: seq<string>

    function Record(): PortingRecord
      reads this
    {
      PortingRecord(phoneNumber, status, carrier, accountId, portDate, requestDate,
                    completionDate, notes, documents)
    }

    constructor FromRecord(r: PortingRecord)
      ensures Record() == r
    {
      phoneNumber := r.phoneNumber;
      status := r.status;
      carrier := r.carrier;
      accountId := r.accountId;
      portDate := r.portDate;
      requestDate := r.requestDate;
      completionDate := r.completionDate;
      notes := r.notes;
      documents := r.documents;
    }

    /** Any port, whatever its status, becomes completed now. */
    method CompletePort(now: real)
      modifies this
      ensures Record() == old(Record()).(status := Completed, completionDate := Some(now))
    {
      status := Completed;
      completionDate := Some(now);
    }

    /** Any port becomes failed, with the reason appended to its notes. */
    method FailPort(reason: string)
      modifies this
      ensures Record() == old(Record()).(status := Failed, notes := FailedNotes(old(notes), reason))
    {
      status := Failed;
      notes := notes + (if notes != "" then "\nFailed: " + reason else "Failed: " + reason);
    }
  }

  // ---------------------------------------------------------------------------
  // Usage records and aggregates
  // ---------------------------------------------------------------------------

  /** The cost per unit, or 0 for a zero quantity. */
  function RateOf(cost: real, quantity: real): (r: real)
    ensures quantity == 0.0 ==> r == 0.0
    ensures quantity != 0.0 ==> r * quantity == cost
  {
    if quantity == 0.0 then 0.0 else cost / quantity
  }

  datatype UsageData = UsageData(
    accountId: string, usageType: UsageDataType, quantity: real,
    periodStart: string, periodEnd: string, cost: real, createdAt: real)
  {
    function CalculateRate(): (r: real)
      ensures quantity == 0.0 ==> r == 0.0
      ensures quantity != 0.0 ==> r * quantity == cost
    {
      RateOf(cost, quantity)
    }
  }

  /** One account's entry in an aggregate's breakdown. */
  datatype AccountUsage = AccountUsage(quantity: real, cost: real, count: nat)

  datatype UsageAggregation = UsageAggregation(
    accountIds: seq<string>, usageType: UsageDataType, totalQuantity: real, totalCost: real,
    periodStart: string, periodEnd: string, breakdown: map<string, AccountUsage>, createdAt: real)
  {
    function CalculateAverageRate(): (r: real)
      ensures totalQuantity == 0.0 ==> r == 0.0
      ensures totalQuantity != 0.0 ==> r * totalQuantity == totalCost
    {
      RateOf(totalCost, totalQuantity)
    }
  }
}
