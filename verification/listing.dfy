/** The listing of the jobs: filters, sort criteria, pages (service/service.go, GetJobs). */
module Listing {
  import opened Jobs
  import opened Ordering
  import opened Integers

  // ---------- text ----------

  function Lower(c: char): char {
    if 'A' <= c <= 'Z' then ((c as int) + 32) as char else c
  }

  function ToLower(s: string): string {
    seq(|s|, i requires 0 <= i < |s| => Lower(s[i]))
  }

  predicate FoundAt(s: string, sub: string, i: nat) {
    i + |sub| <= |s| && s[i..i + |sub|] == sub
  }

  predicate ContainsText(s: string, sub: string) {
    exists i: nat :: i <= |s| && FoundAt(s, sub, i)
  }

  predicate IsSpace(c: char) {
    c == ' ' || c == '\t' || c == '\n' || c == '\r' || c as int == 11 || c as int == 12
  }

  function TrimSpace(s: string): string {
    if s != "" && IsSpace(s[0]) then TrimSpace(s[1..])
    else if s != "" && IsSpace(s[|s| - 1]) then TrimSpace(s[..|s| - 1])
    else s
  }

  /** The pieces of a text between the separators. */
  function Split(s: string, sep: char): (pieces: seq<string>)
    ensures |pieces| > 0
  {
    if s == "" then [""]
    else if s[0] == sep then [""] + Split(s[1..], sep)
    else
      var rest := Split(s[1..], sep);
      [[s[0]] + rest[0]] + rest[1..]
  }

  /** Byte order of texts. */
  predicate TextBefore(a: string, b: string) {
    if b == "" then false
    else if a == "" then true
    else if a[0] != b[0] then a[0] < b[0]
    else TextBefore(a[1..], b[1..])
  }

  lemma {:induction false} TextOrder(a: string, b: string)
    ensures !(TextBefore(a, b) && TextBefore(b, a))
    ensures a == b || TextBefore(a, b) || TextBefore(b, a)
    ensures a == b ==> !TextBefore(a, b)
  {
    if a != "" && b != "" && a[0] == b[0] {
      TextOrder(a[1..], b[1..]);
      assert a == [a[0]] + a[1..] && b == [b[0]] + b[1..];
    }
  }

  lemma {:induction false} TextTransitive(a: string, b: string, c: string)
    requires TextBefore(a, b) && TextBefore(b, c)
    ensures TextBefore(a, c)
  {
    if a != "" && a[0] == b[0] == c[0] {
      TextTransitive(a[1..], b[1..], c[1..]);
    }
  }

  // ---------- sort criteria ----------

  datatype Field = ByCreated | ByUpdated | ByPriority | ByTopic

  datatype Criterion = Criterion(field: Field, desc: bool)

  datatype Known = Unknown | Known(c: Criterion)

  function KnownCriterion(word: string): Known {
    match word
    case "created_asc" => Known(Criterion(ByCreated, false))
    case "created_desc" => Known(Criterion(ByCreated, true))
    case "priority_asc" => Known(Criterion(ByPriority, false))
    case "priority_desc" => Known(Criterion(ByPriority, true))
    case "updated_asc" => Known(Criterion(ByUpdated, false))
    case "updated_desc" => Known(Criterion(ByUpdated, true))
    case "topic_asc" => Known(Criterion(ByTopic, false))
    case "topic_desc" => Known(Criterion(ByTopic, true))
    case _ => Unknown
  }

  /** The criteria of a sort parameter; unknown words are ignored. */
  function CriteriaOf(words: seq<string>): seq<Criterion> {
    if words == [] then [] else
    var rest := CriteriaOf(words[..|words| - 1]);
    match KnownCriterion(TrimSpace(words[|words| - 1]))
    case Known(c) => rest + [c]
    case Unknown => rest
  }

  function SortCriteria(param: string): seq<Criterion> {
    CriteriaOf(Split(if param == "" then "created_desc" else param, ','))
  }

  /** `a` is less than `b` in the field. */
  predicate FieldBefore(f: Field, a: JobValue, b: JobValue) {
    match f
    case ByCreated => a.Created() < b.Created()
    case ByUpdated => a.LastUpdate() < b.LastUpdate()
    case ByPriority => a.spec.priority < b.spec.priority
    case ByTopic => TextBefore(a.spec.topic.name, b.spec.topic.name)
  }

  predicate CriterionBefore(c: Criterion, a: JobValue, b: JobValue) {
    if c.desc then FieldBefore(c.field, b, a) else FieldBefore(c.field, a, b)
  }

  /** The criteria in turn, then creation, then id. */
  predicate Precedes(cs: seq<Criterion>, a: JobValue, b: JobValue) {
    if cs == [] then a.Created() < b.Created() || (a.Created() == b.Created() && a.id < b.id)
    else CriterionBefore(cs[0], a, b) || (!CriterionBefore(cs[0], b, a) && Precedes(cs[1..], a, b))
  }

  lemma FieldOrder(f: Field, a: JobValue, b: JobValue)
    ensures !(FieldBefore(f, a, b) && FieldBefore(f, b, a))
  {
    TextOrder(a.spec.topic.name, b.spec.topic.name);
  }

  lemma FieldTransitive(f: Field, a: JobValue, b: JobValue, c: JobValue)
    ensures FieldBefore(f, a, b) && FieldBefore(f, b, c) ==> FieldBefore(f, a, c)
    ensures FieldBefore(f, a, c) ==> FieldBefore(f, a, b) || FieldBefore(f, b, c)
  {
    if f == ByTopic {
      var x, y, z := a.spec.topic.name, b.spec.topic.name, c.spec.topic.name;
      TextOrder(x, y);
      TextOrder(y, z);
      if TextBefore(x, y) && TextBefore(y, z) {
        TextTransitive(x, y, z);
      }
      if TextBefore(x, z) && !TextBefore(x, y) && !TextBefore(y, z) {
        if TextBefore(y, x) {
          TextTransitive(y, x, z);
        }
      }
    }
  }

  lemma CriterionOrder(k: Criterion, a: JobValue, b: JobValue, c: JobValue)
    ensures !(CriterionBefore(k, a, b) && CriterionBefore(k, b, a))
    ensures CriterionBefore(k, a, b) && CriterionBefore(k, b, c) ==> CriterionBefore(k, a, c)
    ensures CriterionBefore(k, a, c) ==> CriterionBefore(k, a, b) || CriterionBefore(k, b, c)
  {
    hide FieldBefore;
    FieldOrder(k.field, a, b);
    FieldTransitive(k.field, a, b, c);
    FieldTransitive(k.field, c, b, a);
  }

  lemma {:induction false} PrecedesOrder(cs: seq<Criterion>, a: JobValue, b: JobValue)
    ensures !(Precedes(cs, a, b) && Precedes(cs, b, a))
    ensures a.id != b.id ==> Precedes(cs, a, b) || Precedes(cs, b, a)
  {
    if cs != [] {
      CriterionOrder(cs[0], a, b, a);
      PrecedesOrder(cs[1..], a, b);
    }
  }

  lemma {:induction false} PrecedesTransitive(cs: seq<Criterion>, a: JobValue, b: JobValue, c: JobValue)
    requires Precedes(cs, a, b) && Precedes(cs, b, c)
    ensures Precedes(cs, a, c)
  {
    if cs != [] {
      hide CriterionBefore;
      CriterionOrder(cs[0], a, b, c);
      CriterionOrder(cs[0], a, c, b);
      CriterionOrder(cs[0], b, a, c);
      CriterionOrder(cs[0], c, b, a);
      if !CriterionBefore(cs[0], a, b) && !CriterionBefore(cs[0], b, c) {
        PrecedesTransitive(cs[1..], a, b, c);
      }
    }
  }

  ghost predicate OneJobPerId(s: set<JobValue>) {
    forall a, b :: a in s && b in s && a.id == b.id ==> a == b
  }

  function Order(cs: seq<Criterion>): (JobValue, JobValue) -> bool {
    (a, b) => Precedes(cs, a, b)
  }

  /** For every list of criteria, the jobs are strictly and totally ordered. */
  lemma OrderIsStrictTotal(cs: seq<Criterion>, s: set<JobValue>)
    requires OneJobPerId(s)
    ensures StrictTotal(Order(cs), s)
  {
    var less := Order(cs);
    forall a | a in s ensures !less(a, a) {
      PrecedesOrder(cs, a, a);
    }
    forall a, b | a in s && b in s && a != b ensures less(a, b) || less(b, a) {
      PrecedesOrder(cs, a, b);
    }
    forall a, b, c | a in s && b in s && c in s && less(a, b) && less(b, c) ensures less(a, c) {
      PrecedesTransitive(cs, a, b, c);
    }
  }

  function Sign(a: int, b: int): int {
    if a < b then -1 else if a > b then 1 else 0
  }

  function CompareText(a: string, b: string): int {
    if TextBefore(a, b) then -1 else if a == b then 0 else 1
  }

  lemma NextCriterion(cs: seq<Criterion>, a: JobValue, b: JobValue)
    requires cs != [] && !CriterionBefore(cs[0], a, b) && !CriterionBefore(cs[0], b, a)
    ensures Precedes(cs, a, b) == Precedes(cs[1..], a, b) && Precedes(cs, b, a) == Precedes(cs[1..], b, a)
  {
  }

  /** The comparison of the sort: the first criterion that tells the jobs apart decides. */
  method CompareJobs(cs: seq<Criterion>, a: JobValue, b: JobValue) returns (r: int)
    ensures r < 0 <==> Precedes(cs, a, b)
    ensures r > 0 <==> Precedes(cs, b, a)
  {
    PrecedesOrder(cs, a, b);
    for i := 0 to |cs|
      invariant Precedes(cs, a, b) == Precedes(cs[i..], a, b) && Precedes(cs, b, a) == Precedes(cs[i..], b, a)
    {
      var c := cs[i];
      assert cs[i..][0] == c && cs[i..][1..] == cs[i + 1..];
      match c.field {
        case ByCreated => r := Sign(a.Created(), b.Created());
        case ByUpdated => r := Sign(a.LastUpdate(), b.LastUpdate());
        case ByPriority => r := Sign(a.spec.priority, b.spec.priority);
        case ByTopic => r := CompareText(a.spec.topic.name, b.spec.topic.name);
      }
      TextOrder(a.spec.topic.name, b.spec.topic.name);
      if c.desc {
        r := -r;
      }
      assert (r < 0 <==> CriterionBefore(c, a, b)) && (r > 0 <==> CriterionBefore(c, b, a));
      if r != 0 {
        return;
      }
      NextCriterion(cs[i..], a, b);
    }
    assert cs[|cs|..] == [];
    r := Sign(a.Created(), b.Created());
    if r != 0 {
      return;
    }
    r := Sign(a.id, b.id);
  }

  // ---------- filters ----------

  datatype Request = Request(page: int, limit: int, status: string, topic: string, sort: string, search: string)

  function StateOf(status: string): JobState {
    match ToLower(status)
    case "created" => IsCreated
    case "delayed" => IsDelayed
    case "pending" => IsPending
    case "queued" => IsQueued
    case "running" => IsRunning
    case "succeeded" => IsSucceeded
    case "failed" => IsFailed
    case "canceled" => IsCanceled
    case "deleted" => IsDeleted
    case "hidden" => IsHidden
    case _ => NoState
  }

  /** The job passes the filters; `text` writes an id as the source does. */
  predicate Passes(req: Request, j: JobValue, text: JobId -> string) {
    && (req.status != "" ==> StateOf(req.status) != NoState && j.state == StateOf(req.status))
    && (req.topic != "" ==> j.spec.topic == Topic(req.topic))
    && (req.search != "" ==> ContainsText(ToLower(text(j.id)), ToLower(req.search)))
  }

  ghost function Selected(jobs: map<JobId, JobValue>, req: Request, text: JobId -> string): set<JobValue> {
    set id | id in jobs && Passes(req, jobs[id], text) :: jobs[id]
  }

  ghost predicate OwnIds(jobs: map<JobId, JobValue>) {
    forall id :: id in jobs ==> jobs[id].id == id
  }

  /** The filtered jobs in the order of the criteria: the whole list the pages are cut from. */
  ghost function WholeList(jobs: map<JobId, JobValue>, req: Request, text: JobId -> string): seq<JobValue>
    requires OwnIds(jobs)
  {
    OrderIsStrictTotal(SortCriteria(req.sort), Selected(jobs, req, text));
    Arrange(Order(SortCriteria(req.sort)), Selected(jobs, req, text))
  }

  // ---------- pages ----------

  /** Division truncates toward zero. */
  function Quotient(a: int, b: int): int
    requires b != 0
  {
    if a >= 0 then a / b else -(-a / b)
  }

  /** What a call gives; the source has no check against a division by zero, or a slice whose
      bounds are out of order. */
  datatype Answer = Panic | Answer(jobs: seq<JobValue>, total: nat, totalPages: int)

  function TotalPages(total: nat, limit: int): int
    requires limit != 0
  {
    if limit < 0 then 1 else Int64(Quotient(Int64(Int64(total + limit) - 1), limit))
  }

  function FirstIndex(page: int, limit: int): int {
    Int64(Int64(page - 1) * limit)
  }

  datatype Piece = OutOfRange | Piece(jobs: seq<JobValue>)

  /** The jobs between two computed indices. */
  function Cut(q: seq<JobValue>, first: int, last: int): Piece {
    var start := if first < 0 then 0 else first;
    var end := if last > |q| then |q| else last;
    if start >= |q| then Piece([]) else if end < start then OutOfRange else Piece(q[start..end])
  }

  function Paginate(q: seq<JobValue>, page: int, limit: int): Answer {
    if limit == 0 then Panic else
    var first := FirstIndex(page, limit);
    match Cut(q, first, Int64(first + limit))
    case OutOfRange => Panic
    case Piece(jobs) => Answer(jobs, |q|, TotalPages(|q|, limit))
  }

  /** What GetJobs answers. */
  ghost function GetJobsAnswer(jobs: map<JobId, JobValue>, req: Request, text: JobId -> string): Answer
    requires OwnIds(jobs)
  {
    Paginate(WholeList(jobs, req, text), req.page, req.limit)
  }

  function Ceil(total: nat, limit: nat): nat
    requires limit > 0
  {
    (total + limit - 1) / limit
  }

  /** Nothing overflows. */
  predicate Fits(total: nat, page: int, limit: int) {
    && -MAX_INT64 <= page <= MAX_INT64 && -MAX_INT64 <= limit <= MAX_INT64
    && -MAX_INT64 <= (page - 1) * limit <= MAX_INT64 && -MAX_INT64 <= page * limit <= MAX_INT64
    && total + limit - 1 <= MAX_INT64
  }

  lemma FirstIndexFits(total: nat, page: int, limit: int)
    requires Fits(total, page, limit)
    ensures FirstIndex(page, limit) == (page - 1) * limit
    ensures Int64((page - 1) * limit + limit) == page * limit
  {
    Int64Small(page - 1);
    Int64Small((page - 1) * limit);
    Int64Small(page * limit);
    hide Int64;
    assert (page - 1) * limit + limit == page * limit;
  }

  lemma Int64Minus(x: int)
    ensures Int64(Int64(x) - 1) == Int64(x - 1)
  {
  }

  lemma TotalPagesFit(total: nat, limit: int)
    requires 1 <= limit && total + limit - 1 <= MAX_INT64
    ensures TotalPages(total, limit) == Ceil(total, limit)
  {
    Int64Minus(total + limit);
    Int64Small(total + limit - 1);
    DividedIsSmaller(total + limit - 1, limit);
    Int64Small(Ceil(total, limit));
    hide Int64;
  }

  lemma ProductIsLarger(b: nat, k: nat)
    requires b > 0
    ensures k <= b * k
  {
  }

  lemma DividedIsSmaller(a: nat, b: nat)
    requires b > 0
    ensures 0 <= a / b <= a
  {
    ProductIsLarger(b, a / b);
    assert a == b * (a / b) + a % b;
  }

  lemma SignsOfPage(page: int, limit: int)
    ensures var first, last := (page - 1) * limit, page * limit;
            && last == first + limit
            && (limit > 0 && page < 0 ==> last < 0) && (page == 0 ==> last == 0)
            && (limit > 0 && page >= 1 ==> first >= 0)
            && (limit < 0 && page >= 1 ==> last < 0) && (limit < 0 && page < 1 ==> first > 0)
  {
  }

  /** The first index is the product modulo the 64-bit range, however often the steps wrap. */
  lemma FirstIndexWraps(page: int, limit: int)
    ensures FirstIndex(page, limit) == Int64((page - 1) * limit)
  {
    var m := 0x1_0000_0000_0000_0000;
    var x := page - 1;
    var k := (Int64(x) - x) / m;
    assert Int64(x) == x + k * m;
    assert Int64(x) * limit == x * limit + (k * limit) * m by {
      hide Int64;
      assert (x + k * m) * limit == x * limit + (k * limit) * m;
    }
    hide Int64;
    Int64Shift(x * limit, k * limit);
  }

  /** Exactly when a call fails, for every page and limit of 64 bits: a limit of zero; a page on a list that
      is not empty which ends before its beginning, or whose end wraps; with a negative limit, a page that
      begins before the end of the list and whose end does not wrap. */
  lemma PanicsExactly(q: seq<JobValue>, page: int, limit: int)
    requires |q| <= MAX_INT64 && -MAX_INT64 - 1 <= limit <= MAX_INT64
    ensures var first := Int64((page - 1) * limit);
            Paginate(q, page, limit).Panic? <==>
              || limit == 0
              || (limit > 0 && q != [] && first < -limit)
              || (limit > 0 && 0 <= first < |q| && first + limit > MAX_INT64)
              || (limit < 0 && q != [] && first < |q| && first + limit >= -MAX_INT64 - 1)
  {
    FirstIndexWraps(page, limit);
    var first := FirstIndex(page, limit);
    assert -MAX_INT64 - 1 <= first <= MAX_INT64;
    hide FirstIndex;
    if limit > 0 {
      PanicsForPositive(q, first, limit);
    } else if limit < 0 {
      PanicsForNegative(q, first, limit);
    }
    hide Int64;
  }

  lemma PanicsForPositive(q: seq<JobValue>, first: int, limit: int)
    requires |q| <= MAX_INT64 && 0 < limit <= MAX_INT64 && -MAX_INT64 - 1 <= first <= MAX_INT64
    ensures Cut(q, first, Int64(first + limit)).OutOfRange? <==>
              (q != [] && first < -limit) || (0 <= first < |q| && first + limit > MAX_INT64)
  {
  }

  lemma PanicsForNegative(q: seq<JobValue>, first: int, limit: int)
    requires |q| <= MAX_INT64 && -MAX_INT64 - 1 <= limit < 0 && -MAX_INT64 - 1 <= first <= MAX_INT64
    ensures Cut(q, first, Int64(first + limit)).OutOfRange? <==>
              q != [] && first < |q| && first + limit >= -MAX_INT64 - 1
  {
  }

  /** The same where nothing overflows, in terms of page and limit. */
  lemma PanicsExactlyWhenFits(q: seq<JobValue>, page: int, limit: int)
    requires |q| <= MAX_INT64 && Fits(|q|, page, limit)
    ensures Paginate(q, page, limit).Panic? <==>
              || limit == 0
              || (limit > 0 && page < 0 && |q| > 0)
              || (limit < 0 && page >= 1 && |q| > 0)
              || (limit < 0 && page < 1 && (page - 1) * limit < |q|)
  {
    FirstIndexFits(|q|, page, limit);
    SignsOfPage(page, limit);
    var first := (page - 1) * limit;
    assert Int64(first) == first by { Int64Small(first); }
    hide Int64, FirstIndex, TotalPages, Paginate;
    PanicsExactly(q, page, limit);
  }

  /** The jobs of page `page` of the list, by their positions. */
  function PageOf(q: seq<JobValue>, page: nat, limit: nat): seq<JobValue>
    requires page >= 1 && limit >= 1
  {
    UptoGrows(page, limit, |q|);
    q[Upto(page - 1, limit, |q|)..Upto(page, limit, |q|)]
  }

  /** The call answers the jobs of page `page`. */
  predicate AnswersPage(q: seq<JobValue>, page: nat, limit: nat)
    requires page >= 1 && limit >= 1
  {
    var a := Paginate(q, page, limit);
    a.Answer? && a.jobs == PageOf(q, page, limit)
  }

  /** For every positive page and limit of 64 bits, exactly when the call answers the jobs of that page: one
      that begins in the list must not end beyond 64 bits, and one that begins behind it must not have its
      first index wrap to a place from which there are jobs to cut. */
  lemma PageIsRightExactly(q: seq<JobValue>, page: nat, limit: nat)
    requires |q| <= MAX_INT64 && 1 <= page <= MAX_INT64 && 1 <= limit <= MAX_INT64
    ensures var first := Int64((page - 1) * limit);
            AnswersPage(q, page, limit) <==>
              if (page - 1) * limit < |q| then page * limit <= MAX_INT64
              else q == [] || first >= |q| || first + limit == 0
  {
    FirstIndexWraps(page, limit);
    UptoGrows(page, limit, |q|);
    var product := (page - 1) * limit;
    var first := Int64(product);
    hide FirstIndex;
    if product < |q| {
      CutInside(q, product, limit);
    } else {
      CutBehind(q, first, limit);
    }
    hide Int64, Cut;
  }

  lemma CutInside(q: seq<JobValue>, product: nat, limit: nat)
    requires product < |q| <= MAX_INT64 && 1 <= limit <= MAX_INT64
    ensures Int64(product) == product
    ensures var c := Cut(q, product, Int64(product + limit));
            c == Piece(q[product..Min(product + limit, |q|)]) <==> product + limit <= MAX_INT64
    ensures product + limit > MAX_INT64 ==> Cut(q, product, Int64(product + limit)).OutOfRange?
  {
  }

  lemma CutBehind(q: seq<JobValue>, first: int, limit: int)
    requires |q| <= MAX_INT64 && -MAX_INT64 - 1 <= first <= MAX_INT64 && 1 <= limit <= MAX_INT64
    ensures Cut(q, first, Int64(first + limit)) == Piece([]) <==> q == [] || first >= |q| || first + limit == 0
  {
  }

  /** How many of the jobs the pages 1 to `n` hold. */
  function Upto(n: nat, limit: nat, total: nat): (m: nat)
    ensures m <= total
  {
    Min(n * limit, total)
  }

  lemma CutAt(q: seq<JobValue>, first: nat, last: nat)
    requires first <= last
    ensures Cut(q, first, last) == Piece(q[Min(first, |q|)..Min(last, |q|)])
  {
  }

  lemma UptoGrows(p: nat, limit: nat, total: nat)
    requires 1 <= p && 1 <= limit
    ensures Upto(0, limit, total) == 0 && Upto(p - 1, limit, total) <= Upto(p, limit, total)
    ensures (p - 1) * limit >= 0 && p * limit == (p - 1) * limit + limit
  {
  }

  /** Page `p` when nothing overflows. */
  lemma PageAt(q: seq<JobValue>, p: nat, limit: nat)
    requires 1 <= limit && 1 <= p && Fits(|q|, p, limit)
    ensures Upto(p - 1, limit, |q|) <= Upto(p, limit, |q|)
    ensures Paginate(q, p, limit) ==
            Answer(q[Upto(p - 1, limit, |q|)..Upto(p, limit, |q|)], |q|, Ceil(|q|, limit))
  {
    UptoGrows(p, limit, |q|);
    FirstIndexFits(|q|, p, limit);
    TotalPagesFit(|q|, limit);
    CutAt(q, (p - 1) * limit, p * limit);
    hide Int64, FirstIndex, TotalPages, Ceil, Cut, Min, Fits;
  }

  /** The jobs of the pages 1 to `n`. */
  ghost function Pages(q: seq<JobValue>, limit: int, n: nat): seq<JobValue> {
    if n == 0 then [] else
    Pages(q, limit, n - 1) + match Paginate(q, n, limit) case Answer(jobs, _, _) => jobs case Panic => []
  }

  lemma FitsBefore(total: nat, n: nat, limit: nat)
    requires 1 <= n && 1 <= limit && Fits(total, n, limit)
    ensures Fits(total, n - 1, limit) && (n - 1) * limit <= n * limit
  {
    var p, r := (n - 1) * limit, (n - 2) * limit;
    assert n * limit == p + limit && p == r + limit && p >= 0;
  }

  lemma {:induction false} PagesArePrefix(q: seq<JobValue>, limit: nat, n: nat)
    requires 1 <= limit && Fits(|q|, n, limit)
    ensures Pages(q, limit, n) == q[..Upto(n, limit, |q|)]
  {
    hide Paginate, Fits, Ceil, Upto;
    if n == 0 {
      UptoGrows(1, limit, |q|);
    } else {
      FitsBefore(|q|, n, limit);
      PageAt(q, n, limit);
      PagesArePrefix(q, limit, n - 1);
    }
  }

  /** Every page but the last is full, and none is empty. */
  lemma PagesAreFull(q: seq<JobValue>, p: nat, limit: nat)
    requires 1 <= limit && |q| + limit - 1 <= MAX_INT64 && 1 <= p <= Ceil(|q|, limit)
    ensures var a := Paginate(q, p, limit);
            a.Answer? && 0 < |a.jobs| <= limit && (p < Ceil(|q|, limit) ==> |a.jobs| == limit)
  {
    CeilBounds(|q|, limit);
    var c := Ceil(|q|, limit);
    PageProducts(p, c, limit);
    PageAt(q, p, limit);
    hide Paginate, Fits, Ceil;
  }

  lemma ProductGrows(a: nat, b: nat, limit: nat)
    requires a <= b
    ensures a * limit <= b * limit
  {
  }

  lemma PageProducts(p: nat, c: nat, limit: nat)
    requires 1 <= p <= c && 1 <= limit
    ensures 0 <= (p - 1) * limit <= (c - 1) * limit && p * limit <= c * limit && p <= p * limit
    ensures p < c ==> p * limit <= (c - 1) * limit
    ensures p * limit == (p - 1) * limit + limit
  {
    ProductGrows(p - 1, c - 1, limit);
    ProductGrows(p, c, limit);
    ProductIsLarger(limit, p);
    if p < c {
      ProductGrows(p, c - 1, limit);
    }
  }

  lemma CeilBounds(total: nat, limit: nat)
    requires 1 <= limit
    ensures var c := Ceil(total, limit); total <= c * limit < total + limit && (total > 0 ==> c >= 1)
    ensures total > 0 ==> (Ceil(total, limit) - 1) * limit < total
  {
  }

  lemma PagesTile(q: seq<JobValue>, limit: nat)
    requires 1 <= limit && |q| + limit - 1 <= MAX_INT64
    ensures TotalPages(|q|, limit) >= 0 && Pages(q, limit, TotalPages(|q|, limit)) == q
  {
    TotalPagesFit(|q|, limit);
    CeilBounds(|q|, limit);
    var c := Ceil(|q|, limit);
    if c > 0 {
      PageProducts(c, c, limit);
      PagesArePrefix(q, limit, c);
    }
    hide Ceil, TotalPages;
  }

  /** The pages 1 to TotalPages, one after the other, are the whole list, each job once: exactly as
      long as the sum in TotalPages does not overflow. */
  lemma PagesTileExactly(q: seq<JobValue>, limit: nat)
    requires 1 <= limit <= MAX_INT64 && |q| <= MAX_INT64
    ensures var n := TotalPages(|q|, limit);
            Pages(q, limit, if n < 0 then 0 else n) == q <==> q == [] || |q| + limit - 1 <= MAX_INT64
  {
    if |q| + limit - 1 <= MAX_INT64 {
      PagesTile(q, limit);
    } else {
      OverflowGivesNoPage(|q|, limit);
      hide TotalPages;
    }
  }

  lemma Int64Wraps(x: int)
    requires MAX_INT64 < x <= 2 * MAX_INT64
    ensures -MAX_INT64 - 1 <= Int64(x) < 0
  {
  }

  lemma NegativeQuotient(a: int, b: int)
    requires a < 0 < b
    ensures a <= Quotient(a, b) <= 0
  {
    DividedIsSmaller(-a, b);
  }

  lemma OverflowGivesNoPage(total: nat, limit: nat)
    requires 1 <= limit <= MAX_INT64 && total <= MAX_INT64 < total + limit - 1
    ensures TotalPages(total, limit) <= 0
  {
    Int64Minus(total + limit);
    Int64Wraps(total + limit - 1);
    var sum := Int64(total + limit - 1);
    NegativeQuotient(sum, limit);
    Int64Small(Quotient(sum, limit));
    hide Int64, Quotient;
  }

  /** The division is exact up to a remainder, and rounds toward zero. */
  lemma QuotientTruncates(a: int, b: int)
    requires b > 0
    ensures if a >= 0 then b * Quotient(a, b) <= a < b * Quotient(a, b) + b
            else b * Quotient(a, b) - b < a <= b * Quotient(a, b)
  {
  }

  /** The numbers of an answer: the whole length of the list; one page for a negative limit; and otherwise as many
      pages as it takes to hold the list, where their number can be computed. */
  lemma AnswerInNumbers(q: seq<JobValue>, page: int, limit: int)
    requires Paginate(q, page, limit).Answer?
    ensures var a := Paginate(q, page, limit);
            && a.total == |q| && (limit < 0 ==> a.totalPages == 1)
            && (limit > 0 && |q| + limit - 1 <= MAX_INT64 ==>
                  && |q| <= a.totalPages * limit < |q| + limit
                  && (q == [] ==> a.totalPages == 0))
  {
    if limit > 0 && |q| + limit - 1 <= MAX_INT64 {
      TotalPagesFit(|q|, limit);
      CeilBounds(|q|, limit);
      assert q == [] ==> Ceil(|q|, limit) == 0;
      hide Ceil, TotalPages, Cut, FirstIndex;
    }
  }

  /** The pages together list every job that passes the filters, once, in the order of the criteria. */
  lemma PagesListEveryMatch(jobs: map<JobId, JobValue>, req: Request, text: JobId -> string)
    requires OwnIds(jobs) && 1 <= req.limit && |WholeList(jobs, req, text)| + req.limit - 1 <= MAX_INT64
    ensures var q := WholeList(jobs, req, text);
            var n := TotalPages(|q|, req.limit);
            && n >= 0 && |Pages(q, req.limit, n)| == |Selected(jobs, req, text)|
            && Ascending(Order(SortCriteria(req.sort)), Pages(q, req.limit, n))
            && forall j :: j in Pages(q, req.limit, n) <==> j in jobs.Values && Passes(req, j, text)
  {
    PagesTile(WholeList(jobs, req, text), req.limit);
    OrderIsStrictTotal(SortCriteria(req.sort), Selected(jobs, req, text));
    hide Pages, TotalPages, Passes, SortCriteria;
  }

  /** Two page numbers whose index wraps: the one makes the call fail, the other answers page 1. */
  lemma HugePages(q: seq<JobValue>)
    requires q != []
    ensures Paginate(q, 0x4000_0000_0000_0001, 2).Panic?
    ensures Paginate(q, 0x4000_0000_0000_0001, 4) == Paginate(q, 1, 4)
  {
    assert FirstIndex(0x4000_0000_0000_0001, 2) == -0x8000_0000_0000_0000;
    assert Int64(-0x8000_0000_0000_0000 + 2) == -0x8000_0000_0000_0000 + 2;
    assert FirstIndex(0x4000_0000_0000_0001, 4) == 0 == FirstIndex(1, 4);
  }

  // ---------- the operation ----------

  /** The parsing loop of sortJobs. */
  method ParseSort(param: string) returns (criteria: seq<Criterion>)
    ensures criteria == SortCriteria(param)
  {
    var words := Split(if param == "" then "created_desc" else param, ',');
    criteria := [];
    for i := 0 to |words|
      invariant criteria == CriteriaOf(words[..i])
    {
      assert words[..i + 1][..i] == words[..i];
      match KnownCriterion(TrimSpace(words[i])) {
        case Known(c) => criteria := criteria + [c];
        case Unknown =>
      }
    }
    assert words[..|words|] == words;
  }

  ghost predicate DistinctIds(q: seq<JobValue>) {
    forall i, j :: 0 <= i < j < |q| ==> q[i].id != q[j].id
  }

  /** The loop over the job map, in any order. */
  method AllJobs(jobs: map<JobId, JobValue>) returns (all: seq<JobValue>)
    requires OwnIds(jobs)
    ensures DistinctIds(all) && forall j :: j in all <==> j in jobs.Values
  {
    all := [];
    var left := jobs.Keys;
    while left != {}
      invariant left <= jobs.Keys && DistinctIds(all)
      invariant forall j :: j in all <==> j.id in jobs && j.id !in left && jobs[j.id] == j
      decreases |left|
    {
      var id :| id in left;
      left := left - {id};
      all := all + [jobs[id]];
    }
  }

  method FilterJobs(all: seq<JobValue>, req: Request, text: JobId -> string) returns (filtered: seq<JobValue>)
    requires DistinctIds(all)
    ensures DistinctIds(filtered) && forall j :: j in filtered <==> j in all && Passes(req, j, text)
  {
    hide Passes;
    filtered := [];
    for i := 0 to |all|
      invariant DistinctIds(filtered)
      invariant forall j :: j in filtered <==> j in all[..i] && Passes(req, j, text)
    {
      assert all[..i + 1] == all[..i] + [all[i]];
      assert forall j :: j in filtered ==> j.id != all[i].id;
      if Passes(req, all[i], text) {
        filtered := filtered + [all[i]];
      }
    }
    assert all[..|all|] == all;
  }

  /** The library sort with the comparison of the jobs. */
  method SortJobs(jobs: seq<JobValue>, cs: seq<Criterion>) returns (sorted: seq<JobValue>)
    requires DistinctIds(jobs)
    ensures Ascending(Order(cs), sorted) && forall j :: j in sorted <==> j in jobs
  {
    hide Precedes;
    sorted := [];
    for i := 0 to |jobs|
      invariant Ascending(Order(cs), sorted) && forall j :: j in sorted <==> j in jobs[..i]
    {
      assert jobs[..i + 1] == jobs[..i] + [jobs[i]];
      assert forall j :: j in sorted ==> j.id != jobs[i].id;
      sorted := InsertJob(sorted, jobs[i], cs);
    }
    assert jobs[..|jobs|] == jobs;
  }

  method InsertJob(q: seq<JobValue>, j: JobValue, cs: seq<Criterion>) returns (r: seq<JobValue>)
    requires Ascending(Order(cs), q) && forall k :: k in q ==> k.id != j.id
    ensures Ascending(Order(cs), r) && forall k :: k in r <==> k in q || k == j
  {
    hide Precedes;
    var i := 0;
    while i < |q|
      invariant 0 <= i <= |q| && forall k :: 0 <= k < i ==> Order(cs)(q[k], j)
    {
      var c := CompareJobs(cs, q[i], j);
      if c >= 0 {
        break;
      }
      i := i + 1;
    }
    if i < |q| {
      PrecedesOrder(cs, q[i], j);
      forall k | i < k < |q| ensures Order(cs)(j, q[k]) {
        PrecedesTransitive(cs, j, q[i], q[k]);
      }
    }
    r := q[..i] + [j] + q[i..];
  }

  lemma SelectedAreDistinct(jobs: map<JobId, JobValue>, req: Request, text: JobId -> string, q: seq<JobValue>)
    requires OwnIds(jobs) && Ascending(Order(SortCriteria(req.sort)), q)
    requires forall j :: j in q <==> j in jobs.Values && Passes(req, j, text)
    ensures q == WholeList(jobs, req, text)
  {
    hide Passes, SortCriteria;
    var s := Selected(jobs, req, text);
    assert OneJobPerId(s);
    OrderIsStrictTotal(SortCriteria(req.sort), s);
    ArrangeUnique(Order(SortCriteria(req.sort)), q, s);
  }

  method GetJobs(jobs: map<JobId, JobValue>, req: Request, text: JobId -> string) returns (answer: Answer)
    requires OwnIds(jobs)
    ensures answer == GetJobsAnswer(jobs, req, text)
  {
    hide Passes, SortCriteria, Paginate;
    var all := AllJobs(jobs);
    var filtered := FilterJobs(all, req, text);
    var criteria := ParseSort(req.sort);
    var sorted := SortJobs(filtered, criteria);
    SelectedAreDistinct(jobs, req, text, sorted);
    answer := Paginate(sorted, req.page, req.limit);
  }
}
