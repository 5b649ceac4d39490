/** What a listing shows and in which order, in the words of the request and the fields of the jobs
    (service/service.go, filterJobs and sortJobs). */
module Listed {
  import opened Jobs
  import opened Ordering
  import opened Integers
  import opened Listing

  // ---------- texts ----------

  /** The pieces with the separator between them. */
  function Joined(pieces: seq<string>, sep: char): string
    requires pieces != []
  {
    if |pieces| == 1 then pieces[0] else pieces[0] + [sep] + Joined(pieces[1..], sep)
  }

  /** Splitting is undone by joining, and no piece holds the separator. */
  lemma {:induction false} SplitIsExact(s: string, sep: char)
    ensures Joined(Split(s, sep), sep) == s
    ensures forall p :: p in Split(s, sep) ==> sep !in p
  {
    if s != "" {
      SplitIsExact(s[1..], sep);
      var rest := Split(s[1..], sep);
      assert s == [s[0]] + s[1..];
      if s[0] == sep {
        assert ([""] + rest)[1..] == rest;
      } else {
        var first := [[s[0]] + rest[0]];
        assert (first + rest[1..])[1..] == rest[1..];
        assert |rest| > 1 ==> Joined(rest, sep) == rest[0] + [sep] + Joined(rest[1..], sep);
      }
    }
  }

  lemma {:induction false} NothingToSplit(s: string, sep: char)
    requires sep !in s
    ensures Split(s, sep) == [s]
  {
    if s != "" {
      assert s[0] in s && forall c :: c in s[1..] ==> c in s;
      NothingToSplit(s[1..], sep);
      assert s == [s[0]] + s[1..];
    }
  }

  predicate Blank(s: string) {
    forall c :: c in s ==> c in {' ', '\t', '\n', '\r', 11 as char, 12 as char}
  }

  /** Trimming takes blanks away at both ends, until there are none. */
  lemma {:induction false} TrimIsExact(s: string) returns (front: string, back: string)
    ensures s == front + TrimSpace(s) + back && Blank(front) && Blank(back)
    ensures var t := TrimSpace(s); t != "" ==> !Blank([t[0]]) && !Blank([t[|t| - 1]])
    decreases |s|
  {
    if s != "" && IsSpace(s[0]) {
      front, back := TrimIsExact(s[1..]);
      front := [s[0]] + front;
      assert s == [s[0]] + s[1..];
    } else if s != "" && IsSpace(s[|s| - 1]) {
      front, back := TrimIsExact(s[..|s| - 1]);
      back := back + [s[|s| - 1]];
      assert s == s[..|s| - 1] + [s[|s| - 1]];
    } else {
      front, back := "", "";
      assert s != "" ==> !Blank([s[0]]) && !Blank([s[|s| - 1]]) by {
        if s != "" {
          assert s[0] in [s[0]] && s[|s| - 1] in [s[|s| - 1]];
        }
      }
    }
  }

  /** The first place where the texts differ decides, or the shorter one comes first. */
  ghost predicate TextLess(a: string, b: string) {
    exists k :: 0 <= k <= |a| && k <= |b| && a[..k] == b[..k] && DiffersAt(a, b, k)
  }

  predicate DiffersAt(a: string, b: string, k: nat)
    requires k <= |a| && k <= |b|
  {
    if k == |a| then k < |b| else k < |b| && a[k] < b[k]
  }

  lemma {:induction false} TextBeforeIsLess(a: string, b: string)
    ensures TextBefore(a, b) <==> TextLess(a, b)
  {
    if a != "" && b != "" && a[0] == b[0] {
      TextBeforeIsLess(a[1..], b[1..]);
      if TextLess(a[1..], b[1..]) {
        var k :| 0 <= k <= |a[1..]| && k <= |b[1..]| && a[1..][..k] == b[1..][..k] && DiffersAt(a[1..], b[1..], k);
        assert a[..k + 1] == [a[0]] + a[1..][..k] && b[..k + 1] == [b[0]] + b[1..][..k];
        assert DiffersAt(a, b, k + 1);
      }
      if TextLess(a, b) {
        var k :| 0 <= k <= |a| && k <= |b| && a[..k] == b[..k] && DiffersAt(a, b, k);
        assert k > 0;
        assert a[1..][..k - 1] == a[..k][1..] && b[1..][..k - 1] == b[..k][1..];
        assert DiffersAt(a[1..], b[1..], k - 1);
      }
    } else if TextBefore(a, b) {
      assert a[..0] == b[..0] && DiffersAt(a, b, 0);
    } else {
      assert forall k :: 0 < k <= |a| && k <= |b| ==> a[..k][0] == a[0] && b[..k][0] == b[0];
    }
  }

  // ---------- sorting ----------

  ghost predicate HaveHistory(jobs: map<JobId, JobValue>) {
    forall id :: id in jobs ==> jobs[id].history != []
  }

  /** Created earlier, or at the same time with a smaller id. */
  ghost predicate Older(a: JobValue, b: JobValue)
    requires a.history != [] && b.history != []
  {
    CreatedAt(a) < CreatedAt(b) || (CreatedAt(a) == CreatedAt(b) && a.id < b.id)
  }

  /** The word of a sort parameter puts the one job before the other. */
  ghost predicate WordPrefers(word: string, a: JobValue, b: JobValue)
    requires a.history != [] && b.history != []
  {
    || (word == "created_asc" && CreatedAt(a) < CreatedAt(b))
    || (word == "created_desc" && CreatedAt(a) > CreatedAt(b))
    || (word == "updated_asc" && UpdatedAt(a) < UpdatedAt(b))
    || (word == "updated_desc" && UpdatedAt(a) > UpdatedAt(b))
    || (word == "priority_asc" && a.spec.priority < b.spec.priority)
    || (word == "priority_desc" && a.spec.priority > b.spec.priority)
    || (word == "topic_asc" && TextLess(a.spec.topic.name, b.spec.topic.name))
    || (word == "topic_desc" && TextLess(b.spec.topic.name, a.spec.topic.name))
  }

  /** The words in turn, then age. */
  ghost predicate WordsPrefer(words: seq<string>, a: JobValue, b: JobValue)
    requires a.history != [] && b.history != []
  {
    if words == [] then Older(a, b)
    else
      var word := TrimSpace(words[0]);
      WordPrefers(word, a, b) || (!WordPrefers(word, b, a) && WordsPrefer(words[1..], a, b))
  }

  lemma {:induction false} FirstWordFirst(words: seq<string>)
    requires words != []
    ensures CriteriaOf(words) == CriteriaOf([words[0]]) + CriteriaOf(words[1..])
  {
    if |words| == 1 {
      assert words == [words[0]];
    } else {
      var front := words[..|words| - 1];
      FirstWordFirst(front);
      assert front[1..] == words[1..][..|words| - 2];
      assert words[|words| - 1] == words[1..][|words| - 2];
    }
  }

  lemma OneWord(word: string)
    ensures CriteriaOf([word]) == match KnownCriterion(TrimSpace(word)) case Known(c) => [c] case Unknown => []
  {
    assert [word][..0] == [];
    assert CriteriaOf([]) == [];
  }

  lemma {:induction false} KnownWord(word: string, a: JobValue, b: JobValue)
    requires a.history != [] && b.history != []
    ensures match KnownCriterion(word)
            case Known(c) => CriterionBefore(c, a, b) <==> WordPrefers(word, a, b)
            case Unknown => !WordPrefers(word, a, b)
  {
    TextBeforeIsLess(a.spec.topic.name, b.spec.topic.name);
    TextBeforeIsLess(b.spec.topic.name, a.spec.topic.name);
    hide TextLess, TextBefore;
  }

  lemma {:induction false} PrecedesByWords(words: seq<string>, a: JobValue, b: JobValue)
    requires a.history != [] && b.history != []
    ensures Precedes(CriteriaOf(words), a, b) <==> WordsPrefer(words, a, b)
  {
    if words != [] {
      var word, rest := TrimSpace(words[0]), CriteriaOf(words[1..]);
      FirstWordFirst(words);
      OneWord(words[0]);
      KnownWord(word, a, b);
      KnownWord(word, b, a);
      PrecedesByWords(words[1..], a, b);
      hide WordPrefers, CriterionBefore, KnownCriterion, TrimSpace;
      match KnownCriterion(word) {
        case Known(c) => assert ([c] + rest)[0] == c && ([c] + rest)[1..] == rest;
        case Unknown => assert [] + rest == rest;
      }
    }
  }

  /** The list is in the order of the words of the sort parameter, whatever they are; without a parameter the
      newest job comes first. */
  lemma {:induction false} ListInWordOrder(
    jobs: map<JobId, JobValue>, req: Request, text: JobId -> string, i: nat, j: nat)
    requires OwnIds(jobs) && HaveHistory(jobs) && i < j < |WholeList(jobs, req, text)|
    ensures var q := WholeList(jobs, req, text);
            && q[i].history != [] && q[j].history != []
            && WordsPrefer(Split(if req.sort == "" then "created_desc" else req.sort, ','), q[i], q[j])
  {
    var q := WholeList(jobs, req, text);
    var words := Split(if req.sort == "" then "created_desc" else req.sort, ',');
    ListedAreJobs(jobs, req, text, i);
    ListedAreJobs(jobs, req, text, j);
    hide WordsPrefer, Split, Passes, CriteriaOf, Precedes;
    OrderIsStrictTotal(SortCriteria(req.sort), Selected(jobs, req, text));
    assert Order(SortCriteria(req.sort))(q[i], q[j]);
    PrecedesByWords(words, q[i], q[j]);
  }

  lemma ListedAreJobs(jobs: map<JobId, JobValue>, req: Request, text: JobId -> string, i: nat)
    requires OwnIds(jobs) && HaveHistory(jobs) && i < |WholeList(jobs, req, text)|
    ensures WholeList(jobs, req, text)[i] in jobs.Values && WholeList(jobs, req, text)[i].history != []
  {
    hide Passes, SortCriteria;
    var q := WholeList(jobs, req, text);
    OrderIsStrictTotal(SortCriteria(req.sort), Selected(jobs, req, text));
    assert q[i] in q;
    assert q[i] in Selected(jobs, req, text);
  }

  lemma WordAlone(word: string, a: JobValue, b: JobValue)
    requires a.history != [] && b.history != [] && ',' !in word && TrimSpace(word) == word
    ensures WordsPrefer(Split(word, ','), a, b) <==>
              WordPrefers(word, a, b) || (!WordPrefers(word, b, a) && Older(a, b))
  {
    NothingToSplit(word, ',');
    assert [word][1..] == [];
    hide WordPrefers, Older;
  }

  /** The jobs of the pages 1 to TotalPages, one page after the other. */
  ghost function AllPages(jobs: map<JobId, JobValue>, req: Request, text: JobId -> string): seq<JobValue>
    requires OwnIds(jobs) && req.limit != 0
  {
    var q := WholeList(jobs, req, text);
    var n := TotalPages(|q|, req.limit);
    Pages(q, req.limit, if n < 0 then 0 else n)
  }

  /** Nothing overflows in the number of pages. */
  ghost predicate Countable(jobs: map<JobId, JobValue>, req: Request, text: JobId -> string)
    requires OwnIds(jobs)
  {
    1 <= req.limit && |WholeList(jobs, req, text)| + req.limit - 1 <= MAX_INT64
  }

  /** In the list every job has a history, and of two of them the one in front is preferred by the word. */
  ghost predicate OrderedBy(q: seq<JobValue>, word: string) {
    && (forall i :: 0 <= i < |q| ==> q[i].history != [])
    && forall i, j :: 0 <= i < j < |q| ==> PreferredBy(word, q[i], q[j])
  }

  ghost predicate PreferredBy(word: string, a: JobValue, b: JobValue) {
    && a.history != [] && b.history != []
    && (WordPrefers(word, a, b) || (!WordPrefers(word, b, a) && Older(a, b)))
  }

  lemma {:induction false} PagesOrderedBy(jobs: map<JobId, JobValue>, req: Request, text: JobId -> string, word: string)
    requires OwnIds(jobs) && HaveHistory(jobs) && Countable(jobs, req, text)
    requires word == (if req.sort == "" then "created_desc" else req.sort) && ',' !in word && TrimSpace(word) == word
    ensures OrderedBy(AllPages(jobs, req, text), word)
  {
    var q := WholeList(jobs, req, text);
    PagesTile(q, req.limit);
    hide WordsPrefer, WordPrefers, TrimSpace, Split, Older, Pages, TotalPages;
    forall i | 0 <= i < |q| ensures q[i].history != [] {
      ListedAreJobs(jobs, req, text, i);
    }
    forall i, j | 0 <= i < j < |q| ensures PreferredBy(word, q[i], q[j]) {
      ListInWordOrder(jobs, req, text, i, j);
      WordAlone(word, q[i], q[j]);
    }
  }

  /** What a sort parameter of one word means for two jobs of the list, `a` in front of `b`. Where the word does not
      tell them apart, the one created earlier comes first, and then the one with the smaller id. */
  ghost predicate InAskedOrder(sort: string, a: JobValue, b: JobValue)
    requires a.history != [] && b.history != []
  {
    && (sort in {"", "created_desc"} ==>
          CreatedAt(a) > CreatedAt(b) || (CreatedAt(a) == CreatedAt(b) && a.id < b.id))
    && (sort == "created_asc" ==> Older(a, b))
    && (sort == "updated_desc" ==> UpdatedAt(a) > UpdatedAt(b) || (UpdatedAt(a) == UpdatedAt(b) && Older(a, b)))
    && (sort == "updated_asc" ==> UpdatedAt(a) < UpdatedAt(b) || (UpdatedAt(a) == UpdatedAt(b) && Older(a, b)))
    && (sort == "priority_desc" ==>
          a.spec.priority > b.spec.priority || (a.spec.priority == b.spec.priority && Older(a, b)))
    && (sort == "priority_asc" ==>
          a.spec.priority < b.spec.priority || (a.spec.priority == b.spec.priority && Older(a, b)))
    && (sort == "topic_desc" ==>
          TextLess(b.spec.topic.name, a.spec.topic.name) || (a.spec.topic == b.spec.topic && Older(a, b)))
    && (sort == "topic_asc" ==>
          TextLess(a.spec.topic.name, b.spec.topic.name) || (a.spec.topic == b.spec.topic && Older(a, b)))
  }

  /** The pages 1 to TotalPages are in the order that the client asked for. */
  lemma {:induction false} PagesInAskedOrder(
    jobs: map<JobId, JobValue>, req: Request, text: JobId -> string, i: nat, j: nat, a: JobValue, b: JobValue)
    requires OwnIds(jobs) && HaveHistory(jobs) && Countable(jobs, req, text)
    requires i < j < |AllPages(jobs, req, text)|
    requires a == AllPages(jobs, req, text)[i] && b == AllPages(jobs, req, text)[j]
    ensures a.history != [] && b.history != [] && InAskedOrder(req.sort, a, b)
  {
    assert req.limit != 0;
    hide *;
    PagesHaveHistories(jobs, req, text, i);
    PagesHaveHistories(jobs, req, text, j);
    var word := if req.sort == "" then "created_desc" else req.sort;
    if IsSortWord(word) {
      PlainWord(word);
      PagesOrderedBy(jobs, req, text, word);
      OrderedPair(AllPages(jobs, req, text), word, i, j);
      PreferenceInFields(req.sort, word, a, b);
    } else {
      OtherSort(req.sort, a, b);
    }
  }

  predicate IsSortWord(word: string) {
    word in {"created_asc", "created_desc", "updated_asc", "updated_desc", "priority_asc", "priority_desc",
             "topic_asc", "topic_desc"}
  }

  lemma PlainWord(word: string)
    requires IsSortWord(word)
    ensures ',' !in word && TrimSpace(word) == word
  {
    NoBlankEnds(word);
    hide IsSpace;
    assert TrimSpace(word) == word by { hide IsSortWord; }
    hide TrimSpace;
  }

  lemma NoBlankEnds(word: string)
    requires IsSortWord(word)
    ensures word != "" && !IsSpace(word[0]) && !IsSpace(word[|word| - 1])
  {
  }

  lemma OrderedPair(q: seq<JobValue>, word: string, i: nat, j: nat)
    requires OrderedBy(q, word) && i < j < |q|
    ensures PreferredBy(word, q[i], q[j])
  {
  }

  lemma OtherSort(sort: string, a: JobValue, b: JobValue)
    requires a.history != [] && b.history != [] && !IsSortWord(if sort == "" then "created_desc" else sort)
    ensures InAskedOrder(sort, a, b)
  {
  }

  lemma PreferenceInFields(sort: string, word: string, a: JobValue, b: JobValue)
    requires PreferredBy(word, a, b) && word == if sort == "" then "created_desc" else sort
    ensures InAskedOrder(sort, a, b)
  {
    OneNameOrOther(a.spec.topic.name, b.spec.topic.name);
    hide TextLess;
  }

  lemma OneNameOrOther(a: string, b: string)
    ensures a == b || TextLess(a, b) || TextLess(b, a)
  {
    TextOrder(a, b);
    TextBeforeIsLess(a, b);
    TextBeforeIsLess(b, a);
    hide TextLess, TextBefore;
  }

  lemma {:induction false} PagesHaveHistories(jobs: map<JobId, JobValue>, req: Request, text: JobId -> string, i: nat)
    requires OwnIds(jobs) && HaveHistory(jobs) && Countable(jobs, req, text) && i < |AllPages(jobs, req, text)|
    ensures AllPages(jobs, req, text)[i].history != []
  {
    PagesTile(WholeList(jobs, req, text), req.limit);
    hide Pages, TotalPages, HaveHistory;
    ListedAreJobs(jobs, req, text, i);
  }

  // ---------- filtering ----------

  /** The name of a state, in lower case. */
  ghost predicate NamesState(name: string, state: JobState) {
    || (name == "created" && state == IsCreated) || (name == "delayed" && state == IsDelayed)
    || (name == "pending" && state == IsPending) || (name == "queued" && state == IsQueued)
    || (name == "running" && state == IsRunning) || (name == "succeeded" && state == IsSucceeded)
    || (name == "failed" && state == IsFailed) || (name == "canceled" && state == IsCanceled)
    || (name == "deleted" && state == IsDeleted) || (name == "hidden" && state == IsHidden)
  }

  /** The second text is the first one with its capital letters made small. */
  ghost predicate IsLowered(s: string, t: string) {
    && |t| == |s|
    && forall i :: 0 <= i < |s| ==>
         if 'A' <= s[i] <= 'Z' then 'a' <= t[i] <= 'z' && t[i] as int - 'a' as int == s[i] as int - 'A' as int
         else t[i] == s[i]
  }

  lemma ToLowerLowers(s: string)
    ensures IsLowered(s, ToLower(s))
  {
  }

  lemma {:induction false} ContainsIsSplit(s: string, sub: string)
    ensures ContainsText(s, sub) <==> exists front, back :: s == front + sub + back
  {
    if ContainsText(s, sub) {
      var i: nat :| i <= |s| && FoundAt(s, sub, i);
      assert s == s[..i] + sub + s[i + |sub|..];
    }
    if front, back :| s == front + sub + back {
      assert s[|front|..|front| + |sub|] == sub;
      assert FoundAt(s, sub, |front|);
    }
  }

  /** Exactly what is listed: every job, once, whose state has the name asked for, whose topic is the one asked for,
      and whose id has the searched text in it, in whatever case; a field of the request that is empty asks for
      nothing. */
  lemma {:induction false} ListedExactly(
    jobs: map<JobId, JobValue>, req: Request, text: JobId -> string, j: JobValue, status: string, id: string,
    search: string)
    requires OwnIds(jobs) && Countable(jobs, req, text)
    requires IsLowered(req.status, status) && IsLowered(text(j.id), id) && IsLowered(req.search, search)
    ensures j in AllPages(jobs, req, text) <==>
              && j in jobs.Values
              && (req.status == "" || NamesState(status, j.state))
              && (req.topic == "" || j.spec.topic.name == req.topic)
              && (req.search == "" || exists front, back :: id == front + search + back)
    ensures forall i, k :: 0 <= i < k < |AllPages(jobs, req, text)| ==>
              AllPages(jobs, req, text)[i] != AllPages(jobs, req, text)[k]
  {
    PassesInWords(req, j, text, status, id, search);
    hide Passes, NamesState, IsLowered;
    PagesListEveryMatch(jobs, req, text);
    ListedOnce(jobs, req, text);
  }

  lemma {:induction false} ListedOnce(jobs: map<JobId, JobValue>, req: Request, text: JobId -> string)
    requires OwnIds(jobs) && Countable(jobs, req, text)
    ensures forall i, k :: 0 <= i < k < |AllPages(jobs, req, text)| ==>
              AllPages(jobs, req, text)[i] != AllPages(jobs, req, text)[k]
  {
    var q, less := WholeList(jobs, req, text), Order(SortCriteria(req.sort));
    PagesTile(q, req.limit);
    hide Pages, TotalPages, Passes, SortCriteria;
    OrderIsStrictTotal(SortCriteria(req.sort), Selected(jobs, req, text));
    hide Order;
    assert Elements(q) == Selected(jobs, req, text);
    AscendingIsDistinct(less, q);
  }

  lemma {:induction false} LoweredOnce(s: string, t: string, u: string)
    requires IsLowered(s, t) && IsLowered(s, u)
    ensures t == u
  {
  }

  lemma {:induction false} PassesInWords(
    req: Request, j: JobValue, text: JobId -> string, status: string, id: string, search: string)
    requires IsLowered(req.status, status) && IsLowered(text(j.id), id) && IsLowered(req.search, search)
    ensures Passes(req, j, text) <==>
              && (req.status == "" || NamesState(status, j.state))
              && (req.topic == "" || j.spec.topic.name == req.topic)
              && (req.search == "" || exists front, back :: id == front + search + back)
  {
    ToLowerLowers(req.status);
    ToLowerLowers(text(j.id));
    ToLowerLowers(req.search);
    LoweredOnce(req.status, status, ToLower(req.status));
    LoweredOnce(text(j.id), id, ToLower(text(j.id)));
    LoweredOnce(req.search, search, ToLower(req.search));
    ContainsIsSplit(id, search);
    hide IsLowered, ToLower, ContainsText;
  }
}
