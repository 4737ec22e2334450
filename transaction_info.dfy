/** The status badge of a transaction card (frontend/src/components/TransactionInfo.tsx): the
    fraud probability picks one of three statuses, and each status has its own colour. */
module TransactionStatus {

  /** A status; the declaration order is the order of increasing risk. */
  datatype Status = Processed | UnderReview | Blocked

  /** The two thresholds of getTransactionStatus. */
  const ReviewThreshold: real := 0.3
  const BlockThreshold: real := 0.7

  /** getTransactionStatus. */
  function StatusOf(probability: real): (s: Status)
    ensures s == Processed <==> probability < ReviewThreshold
    ensures s == UnderReview <==> ReviewThreshold <= probability < BlockThreshold
    ensures s == Blocked <==> BlockThreshold <= probability
  {
    if probability < 0.3 then Processed
    else if probability < 0.7 then UnderReview
    else Blocked
  }

  /** The rank of a status along Processed < Under Review < Blocked. */
  function Rank(s: Status): (r: nat)
    ensures r <= 2
  {
    match s
    case Processed => 0
    case UnderReview => 1
    case Blocked => 2
  }

  /** The label shown on the card. */
  function Label(s: Status): string {
    match s
    case Processed => "Processed"
    case UnderReview => "Under Review"
    case Blocked => "Blocked"
  }

  /** getStatusColor. */
  function StatusColor(s: Status): string {
    match s
    case Processed => "text-green-400"
    case UnderReview => "text-yellow-400"
    case Blocked => "text-red-400"
  }

  /** A higher probability never gives a less severe status. */
  lemma StatusMonotone(p: real, q: real)
    requires p <= q
    ensures Rank(StatusOf(p)) <= Rank(StatusOf(q))
  {
  }

  /** Statuses, labels and colours are in one-to-one correspondence. */
  lemma ColoursDistinct(s: Status, t: Status)
    ensures StatusColor(s) == StatusColor(t) <==> s == t
    ensures Label(s) == Label(t) <==> s == t
  {
    if s != t {
      assert StatusColor(s)[5] != StatusColor(t)[5];
      assert Label(s)[0] != Label(t)[0];
    }
  }
}
