/** In which of the dashboard's buckets a payment falls. */
module PaymentBuckets {
  import opened Common
  import opened Dashboard
  import opened Payments
  import opened PaymentSafety

  function StatusText(s: Status): string {
    match s
    case Pending => "pending"
    case Processing => "processing"
    case Authorized => "authorized"
    case Captured => "captured"
    case Success => "success"
    case Failed => "failed"
    case Cancelled => "cancelled"
    case Refunded => "refunded"
    case Expired => "expired"
    case SettlementPending => "settlement_pending"
    case SettlementProcessing => "settlement_processing"
    case SettlementComplete => "settlement_complete"
    case Completed => "completed"
    case ManualReview => "manual_review"
  }

  lemma ListedAsApproved(name: string)
    requires name in {"authorized", "captured", "success", "settlement_complete"}
    ensures BucketOf(name) == Some(Approved)
  {
    Place(name);
  }

  lemma CompletedIsApproved(name: string)
    requires name == "completed"
    ensures BucketOf(name) == Some(Approved)
  {
    assert Upper(name) == "COMPLETED";
    Place(name);
  }

  lemma FailedIsDeclined(name: string)
    requires name == "failed"
    ensures BucketOf(name) == Some(Declined)
  {
    assert Upper(name) == "FAILED";
    assert |name| == 6 && name[0] == 'f' && Upper(name)[0] == 'F';
    assert InNone(name, APPROVED);
    Place(name);
  }

  lemma RefundedIsRefunded(name: string)
    requires name == "refunded"
    ensures BucketOf(name) == Some(Bucket.Refunded)
  {
    assert |Upper(name)| == 8 && name[0] == 'r' && Upper(name)[0] == 'R';
    assert InNone(name, APPROVED) && InNone(name, DECLINED);
    Place(name);
  }

  lemma CancelledIsVoided(name: string)
    requires name == "cancelled"
    ensures BucketOf(name) == Some(Voided)
  {
    assert |Upper(name)| == 9 && name[1] == 'a' && Upper(name)[1] == 'A';
    assert InNone(name, APPROVED) && InNone(name, DECLINED) && InNone(name, REFUNDED);
    Place(name);
  }

  lemma WaitingIsPending(name: string)
    requires name in {"pending", "processing"}
    ensures BucketOf(name) == Some(Bucket.Pending)
  {
    assert name[0] == 'p' && Upper(name)[0] == 'P' && |Upper(name)| == |name| && |name| in {7, 10};
    assert InNone(name, APPROVED) && InNone(name, DECLINED) && InNone(name, REFUNDED) && InNone(name, VOIDED);
    Place(name);
  }

  lemma SettlingIsUnlisted(name: string)
    requires name in {"settlement_pending", "settlement_processing"}
    ensures BucketOf(name) == None
  {
    assert |Upper(name)| == |name| && |name| in {18, 21} && name[0] == 's' && Upper(name)[0] == 'S';
    assert InNone(name, APPROVED) && InNone(name, DECLINED) && InNone(name, REFUNDED) && InNone(name, VOIDED);
    assert InNone(name, PENDING) && Upper(name) !in FAILURES;
    Place(name);
  }

  lemma RestIsUnlisted(name: string)
    requires name in {"expired", "manual_review"}
    ensures BucketOf(name) == None
  {
    assert |Upper(name)| == |name|;
    assert (|name| == 7 && name[0] == 'e' && Upper(name)[0] == 'E') || |name| == 13;
    assert InNone(name, APPROVED) && InNone(name, DECLINED) && InNone(name, REFUNDED) && InNone(name, VOIDED);
    assert InNone(name, PENDING) && Upper(name) !in FAILURES;
    Place(name);
  }

  /** The bucket of each status of a payment. */
  lemma PaymentBucket(s: Status)
    ensures BucketOf(StatusText(s))
         == match s
            case Pending => Some(Bucket.Pending)
            case Processing => Some(Bucket.Pending)
            case Authorized => Some(Approved)
            case Captured => Some(Approved)
            case Success => Some(Approved)
            case Failed => Some(Declined)
            case Cancelled => Some(Voided)
            case Refunded => Some(Bucket.Refunded)
            case Expired => None
            case SettlementPending => None
            case SettlementProcessing => None
            case SettlementComplete => Some(Approved)
            case Completed => Some(Approved)
            case ManualReview => None
  {
    match s
    case Pending => WaitingIsPending(StatusText(s));
    case Processing => WaitingIsPending(StatusText(s));
    case Failed => FailedIsDeclined(StatusText(s));
    case Cancelled => CancelledIsVoided(StatusText(s));
    case Refunded => RefundedIsRefunded(StatusText(s));
    case Completed => CompletedIsApproved(StatusText(s));
    case Authorized => ListedAsApproved(StatusText(s));
    case Captured => ListedAsApproved(StatusText(s));
    case Success => ListedAsApproved(StatusText(s));
    case SettlementComplete => ListedAsApproved(StatusText(s));
    case SettlementPending => SettlingIsUnlisted(StatusText(s));
    case SettlementProcessing => SettlingIsUnlisted(StatusText(s));
    case _ => RestIsUnlisted(StatusText(s));
  }

  /** In every reachable ledger a payment is in no bucket exactly while it is parked. */
  lemma ParkedIsInNoBucket(l: Ledger, id: Uuid)
    requires Inv(l) && id in l.rows
    ensures BucketOf(StatusText(l.rows[id].status)).None? <==> l.rows[id].status == SettlementPending
  {
    PaymentBucket(l.rows[id].status);
    assert AtRest(l.rows[id]);
  }
}
