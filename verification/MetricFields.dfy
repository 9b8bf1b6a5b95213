/** The names of the metric counters: a length prefix, the worker or queue name, a bar, the metric. Names
    are UTF-8 text of any content, seen here as bytes. */
module MetricFields {
  import opened Redis

  type Byte = b: int | 0 <= b < 256

  type Str = seq<Byte>

  const COLON: Byte := 58
  const BAR: Byte := 124
  const PLUS: Byte := 43
  const ZERO: Byte := 48
  const USIZE_MAX: nat := 0xFFFF_FFFF_FFFF_FFFF
  /** No Rust string is longer. */
  const LENGTH_LIMIT: nat := 0x7FFF_FFFF_FFFF_FFFF

  datatype Metric = Processed | FailedJobs | PanickedJobs | SuccessfulExecutions | FailedExecutions
      | PanickedExecutions | ExecutionMs

  datatype QueueMetric = QueueProcessed | QueueSucceeded | QueueFailed

  function Label(m: Metric): Str {
    match m
    case Processed => [112]
    case FailedJobs => [102]
    case PanickedJobs => [112, 110]
    case SuccessfulExecutions => [120, 115]
    case FailedExecutions => [120, 102]
    case PanickedExecutions => [120, 112, 110]
    case ExecutionMs => [109, 115]
  }

  function QueueLabel(m: QueueMetric): Str {
    match m
    case QueueProcessed => [112]
    case QueueSucceeded => [115]
    case QueueFailed => [102]
  }

  function MetricOf(s: Str): Option<Metric> {
    if s == Label(Processed) then Some(Processed)
    else if s == Label(FailedJobs) then Some(FailedJobs)
    else if s == Label(PanickedJobs) then Some(PanickedJobs)
    else if s == Label(SuccessfulExecutions) then Some(SuccessfulExecutions)
    else if s == Label(FailedExecutions) then Some(FailedExecutions)
    else if s == Label(PanickedExecutions) then Some(PanickedExecutions)
    else if s == Label(ExecutionMs) then Some(ExecutionMs)
    else None
  }

  function QueueMetricOf(s: Str): Option<QueueMetric> {
    if s == QueueLabel(QueueProcessed) then Some(QueueProcessed)
    else if s == QueueLabel(QueueSucceeded) then Some(QueueSucceeded)
    else if s == QueueLabel(QueueFailed) then Some(QueueFailed)
    else None
  }

  // ---- decimal numbers ----

  predicate IsDigit(b: Byte) {
    ZERO <= b < ZERO + 10
  }

  /** What `format!("{}")` prints for a length. */
  function Print(n: nat): (s: Str)
    ensures s != [] && forall i :: 0 <= i < |s| ==> IsDigit(s[i])
  {
    if n < 10 then [ZERO + n] else Print(n / 10) + [ZERO + n % 10]
  }

  function Push(acc: Option<nat>, b: Byte): Option<nat> {
    match acc
    case None => None
    case Some(v) => if IsDigit(b) && v * 10 + (b - ZERO) <= USIZE_MAX then Some(v * 10 + (b - ZERO)) else None
  }

  function ParseDigits(acc: Option<nat>, s: Str): Option<nat>
    decreases |s|
  {
    if s == [] then acc else ParseDigits(Push(acc, s[0]), s[1..])
  }

  /** `str::parse::<usize>`: one leading plus is accepted, an overflow is an error. */
  function ParseUsize(s: Str): Option<nat> {
    if s == [] then None
    else if s[0] == PLUS then (if |s| == 1 then None else ParseDigits(Some(0), s[1..]))
    else ParseDigits(Some(0), s)
  }

  lemma {:induction false} ParseDigitsSnoc(acc: Option<nat>, s: Str, b: Byte)
    ensures ParseDigits(acc, s + [b]) == Push(ParseDigits(acc, s), b)
    decreases |s|
  {
    if s == [] {
      assert ParseDigits(acc, [b]) == ParseDigits(Push(acc, b), [b][1..]);
    } else {
      assert (s + [b])[1..] == s[1..] + [b];
      ParseDigitsSnoc(Push(acc, s[0]), s[1..], b);
    }
  }

  /** A printed length is read back, and one of 2^64 or more is refused. */
  lemma ParsePrinted(n: nat)
    ensures ParseUsize(Print(n)) == if n < 18_446_744_073_709_551_616 then Some(n) else None
  {
    assert Print(n)[0] != PLUS;
    PrintedDigits(n);
  }

  lemma {:induction false} PrintedDigits(n: nat)
    ensures ParseDigits(Some(0), Print(n)) == if n <= USIZE_MAX then Some(n) else None
  {
    if n < 10 {
      assert ParseDigits(Some(0), [ZERO + n]) == ParseDigits(Push(Some(0), ZERO + n), [ZERO + n][1..]);
    } else {
      PrintedDigits(n / 10);
      ParseDigitsSnoc(Some(0), Print(n / 10), ZERO + n % 10);
    }
  }

  /** A plus sign and leading zeros are read over; a plus sign alone and nothing at all are no length. */
  lemma PaddedLengths(n: nat)
    requires n <= USIZE_MAX
    ensures ParseUsize([43] + Print(n)) == Some(n) && ParseUsize([48] + Print(n)) == Some(n)
    ensures ParseUsize([]) == None && ParseUsize([43]) == None
  {
    PrintedDigits(n);
    assert ([43] + Print(n))[1..] == Print(n) && ([48] + Print(n))[1..] == Print(n);
    assert Push(Some(0), ZERO) == Some(0);
  }

  // ---- splitting ----

  function SplitOnce(s: Str, at: Byte): Option<(Str, Str)> {
    if s == [] then None
    else if s[0] == at then Some(([], s[1..]))
    else
      match SplitOnce(s[1..], at)
      case None => None
      case Some((left, right)) => Some(([s[0]] + left, right))
  }

  function RSplitOnce(s: Str, at: Byte): Option<(Str, Str)> {
    if s == [] then None
    else
      var n := |s| - 1;
      if s[n] == at then Some((s[..n], []))
      else
        match RSplitOnce(s[..n], at)
        case None => None
        case Some((left, right)) => Some((left, right + [s[n]]))
  }

  lemma {:induction false} SplitsAtTheFirst(left: Str, at: Byte, right: Str)
    requires at !in left
    ensures SplitOnce(left + [at] + right, at) == Some((left, right))
  {
    var s := left + [at] + right;
    if left == [] {
      assert s[1..] == right;
    } else {
      assert s[1..] == left[1..] + [at] + right;
      SplitsAtTheFirst(left[1..], at, right);
      assert [left[0]] + left[1..] == left;
    }
  }

  lemma {:induction false} SplitsAtTheLast(left: Str, at: Byte, right: Str)
    requires at !in right
    ensures RSplitOnce(left + [at] + right, at) == Some((left, right))
  {
    var s := left + [at] + right;
    var n := |s| - 1;
    if right == [] {
      assert s[..n] == left;
    } else {
      var init := right[..|right| - 1];
      assert s[..n] == left + [at] + init;
      SplitsAtTheLast(left, at, init);
      assert init + [right[|right| - 1]] == right;
    }
  }

  // ---- the field names ----

  function FieldKey(name: Str): Str {
    Print(|name|) + [COLON] + name
  }

  /** Not a continuation byte of UTF-8. */
  predicate IsCharBoundary(s: Str, i: nat) {
    i == 0 || i == |s| || (i < |s| && !(128 <= s[i] < 192))
  }

  function FromFieldKey(key: Str): Option<Str> {
    match SplitOnce(key, COLON)
    case None => None
    case Some((digits, rest)) =>
      match ParseUsize(digits)
      case None => None
      case Some(len) => if |rest| < len || !IsCharBoundary(rest, len) then None else Some(rest[..len])
  }

  function MetricField(name: Str, m: Metric): Str {
    FieldKey(name) + [BAR] + Label(m)
  }

  function SplitMetricField(field: Str): Option<(Str, Metric)> {
    match RSplitOnce(field, BAR)
    case None => None
    case Some((key, suffix)) =>
      match MetricOf(suffix)
      case None => None
      case Some(m) =>
        match FromFieldKey(key)
        case None => None
        case Some(name) => Some((name, m))
  }

  function QueueMetricField(queue: Str, m: QueueMetric): Str {
    FieldKey(queue) + [BAR] + QueueLabel(m)
  }

  function FromQueueKey(key: Str): Option<Str> {
    match SplitOnce(key, COLON)
    case None => None
    case Some((digits, queue)) =>
      match ParseUsize(digits)
      case None => None
      case Some(len) => if |queue| != len || !IsCharBoundary(queue, len) then None else Some(queue)
  }

  function SplitQueueMetricField(field: Str): Option<(Str, QueueMetric)> {
    match RSplitOnce(field, BAR)
    case None => None
    case Some((key, suffix)) =>
      match QueueMetricOf(suffix)
      case None => None
      case Some(m) =>
        match FromQueueKey(key)
        case None => None
        case Some(queue) => Some((queue, m))
  }

  lemma KeySplits(name: Str, extra: Str)
    requires |name| <= LENGTH_LIMIT
    ensures SplitOnce(FieldKey(name) + extra, COLON) == Some((Print(|name|), name + extra))
    ensures ParseUsize(Print(|name|)) == Some(|name|)
  {
    ParsePrinted(|name|);
    var digits := Print(|name|);
    assert forall i :: 0 <= i < |digits| ==> IsDigit(digits[i]);
    assert FieldKey(name) + extra == digits + [COLON] + (name + extra);
    SplitsAtTheFirst(digits, COLON, name + extra);
  }

  /** The worker parser takes the name off the front of what follows the colon and ignores the rest, unless the rest
      begins in the middle of a character; the queue parser refuses a rest. */
  lemma TrailingBytes(name: Str, extra: Str)
    requires |name| <= LENGTH_LIMIT
    ensures FromFieldKey(FieldKey(name) + extra)
         == if extra == [] || name == [] || !(128 <= extra[0] < 192) then Some(name) else None
    ensures FromQueueKey(FieldKey(name) + extra) == if extra == [] then Some(name) else None
  {
    KeySplits(name, extra);
    assert (name + extra)[..|name|] == name;
    assert extra == [] ==> name + extra == name;
  }

  /** For every name, colons, bars and digits included. */
  lemma FieldRoundTrip(name: Str, m: Metric)
    requires |name| <= LENGTH_LIMIT
    ensures SplitMetricField(MetricField(name, m)) == Some((name, m))
  {
    SplitsAtTheLast(FieldKey(name), BAR, Label(m));
    TrailingBytes(name, []);
    assert FieldKey(name) + [] == FieldKey(name) && name + [] == name;
  }

  lemma QueueFieldRoundTrip(queue: Str, m: QueueMetric)
    requires |queue| <= LENGTH_LIMIT
    ensures SplitQueueMetricField(QueueMetricField(queue, m)) == Some((queue, m))
  {
    SplitsAtTheLast(FieldKey(queue), BAR, QueueLabel(m));
    TrailingBytes(queue, []);
    assert FieldKey(queue) + [] == FieldKey(queue);
  }

  /** So no two counters share a field. */
  lemma FieldsAreDistinct(name1: Str, m1: Metric, name2: Str, m2: Metric)
    requires |name1| <= LENGTH_LIMIT && |name2| <= LENGTH_LIMIT
    ensures MetricField(name1, m1) == MetricField(name2, m2) <==> name1 == name2 && m1 == m2
  {
    FieldRoundTrip(name1, m1);
    FieldRoundTrip(name2, m2);
  }

  lemma QueueFieldsAreDistinct(queue1: Str, m1: QueueMetric, queue2: Str, m2: QueueMetric)
    requires |queue1| <= LENGTH_LIMIT && |queue2| <= LENGTH_LIMIT
    ensures QueueMetricField(queue1, m1) == QueueMetricField(queue2, m2) <==> queue1 == queue2 && m1 == m2
  {
    QueueFieldRoundTrip(queue1, m1);
    QueueFieldRoundTrip(queue2, m2);
  }

  /** Text that is ASCII, as bytes. */
  function Ascii(s: string): (r: Str)
    requires forall i :: 0 <= i < |s| ==> s[i] < 128 as char
    ensures |r| == |s| && forall i :: 0 <= i < |r| ==> r[i] == s[i] as int
  {
    seq(|s|, i requires 0 <= i < |s| => s[i] as int)
  }

  lemma TextOfField(name: Str, suffix: Str, text: Str)
    requires text == [BAR] + suffix
    ensures FieldKey(name) + [BAR] + suffix == Print(|name|) + Ascii(":") + name + text
  {
    assert Ascii(":") == [COLON];
    assert FieldKey(name) + [BAR] + suffix == FieldKey(name) + text;
  }

  /** The labels as the text that Redis holds. */
  function LabelText(m: Metric): (s: string)
    ensures forall i :: 0 <= i < |s| ==> s[i] < 128 as char
  {
    match m
    case Processed => "|p"
    case FailedJobs => "|f"
    case PanickedJobs => "|pn"
    case SuccessfulExecutions => "|xs"
    case FailedExecutions => "|xf"
    case PanickedExecutions => "|xpn"
    case ExecutionMs => "|ms"
  }

  function QueueLabelText(m: QueueMetric): (s: string)
    ensures forall i :: 0 <= i < |s| ==> s[i] < 128 as char
  {
    match m case QueueProcessed => "|p" case QueueSucceeded => "|s" case QueueFailed => "|f"
  }

  lemma LabelsAreTexts(m: Metric)
    ensures Ascii(LabelText(m)) == [BAR] + Label(m)
  {
  }

  lemma QueueLabelsAreTexts(m: QueueMetric)
    ensures Ascii(QueueLabelText(m)) == [BAR] + QueueLabel(m)
  {
  }

  /** The texts that are stored: the length of the name, a colon, the name, a bar, and the label of the counter. */
  lemma StoredTexts(name: Str, m: Metric)
    ensures MetricField(name, m) == Print(|name|) + Ascii(":") + name + Ascii(LabelText(m))
  {
    LabelsAreTexts(m);
    TextOfField(name, Label(m), Ascii(LabelText(m)));
  }

  lemma StoredQueueTexts(name: Str, m: QueueMetric)
    ensures QueueMetricField(name, m) == Print(|name|) + Ascii(":") + name + Ascii(QueueLabelText(m))
  {
    QueueLabelsAreTexts(m);
    TextOfField(name, QueueLabel(m), Ascii(QueueLabelText(m)));
  }

  /** Lengths are printed in decimal, most significant digit first, without leading zeros. */
  lemma {:induction false} PrintedIsDecimal(n: nat)
    ensures n < 10 ==> Print(n) == [48 + n]
    ensures n >= 10 ==> Print(n) == Print(n / 10) + [48 + n % 10] && Print(n)[0] != 48
  {
    if n >= 100 {
      PrintedIsDecimal(n / 10);
    }
  }
}
