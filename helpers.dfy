/**
 * The integer rules of src/helpers.py: the crawl-queue admission of
 * `category_export`, the marketplace detection from a job key, and the
 * integer bands of the number formatting helpers.
 *
 * The Scrapinghub client is replaced by values: the jobs it lists (with
 * their spider and state) and the key it would give a newly run job, or
 * `None` when running the job raises.
 */
module Helpers {
  import opened Wrappers
  import opened Numerals

  // ---------------------------------------------------------------------
  // Crawl queue and category export
  // ---------------------------------------------------------------------

  datatype JobState = Pending | Running | Finished | Deleted

  /** One job as the crawl service lists it. */
  datatype Job = Job(spider: string, state: JobState)

  /** The `job_args` dictionary handed to the crawl service. */
  datatype JobArgs = JobArgs(categoryUrl: string, callbackUrl: string, callbackParams: string)

  /** A request to run `spider` with `args`. */
  datatype JobRequest = JobRequest(spider: string, args: JobArgs)

  /** What `category_export` does: submit a job, or raise. */
  datatype ExportOutcome =
    | Submitted(request: JobRequest, link: string)
    | QueueTooLong            // the threshold check raised
    | SubmitFailed            // running the job raised

  /** Default of the SCHEDULED_JOBS_THRESHOLD setting. */
  const DefaultJobsThreshold: int := 1
  const DefaultSpider: string := "wb"
  const JobLinkPrefix: string := "https://app.scrapinghub.com/p/"
  const ChatIdParam: string := "chat_id="

  /** `spider.jobs.count(state=state)` for the jobs of `spider`. */
  function CountJobs(jobs: seq<Job>, spider: string, state: JobState): (n: nat)
    ensures n <= |jobs|
  {
    if jobs == [] then 0
    else (if jobs[0].spider == spider && jobs[0].state == state then 1 else 0)
         + CountJobs(jobs[1..], spider, state)
  }

  predicate IsActive(j: Job, spider: string) {
    j.spider == spider && (j.state == Pending || j.state == Running)
  }

  /** Pending plus running jobs of `spider` (helpers.py and scrapinghub_helper.py define it alike). */
  function ScheduledJobsCount(jobs: seq<Job>, spider: string): (n: nat)
    ensures n <= |jobs|
    ensures n == 0 <== forall i :: 0 <= i < |jobs| ==> !IsActive(jobs[i], spider)
  {
    CountJobsDisjoint(jobs, spider);
    NoActiveCountsNone(jobs, spider);
    CountJobs(jobs, spider, Pending) + CountJobs(jobs, spider, Running)
  }

  lemma {:induction false} NoActiveCountsNone(jobs: seq<Job>, spider: string)
    ensures (forall i :: 0 <= i < |jobs| ==> !IsActive(jobs[i], spider)) ==>
            CountJobs(jobs, spider, Pending) == 0 && CountJobs(jobs, spider, Running) == 0
  {
    if jobs != [] && forall i :: 0 <= i < |jobs| ==> !IsActive(jobs[i], spider) {
      assert !IsActive(jobs[0], spider);
      assert forall i :: 0 <= i < |jobs[1..]| ==> !IsActive(jobs[1..][i], spider) by {
        forall i | 0 <= i < |jobs[1..]| ensures !IsActive(jobs[1..][i], spider) {
          assert jobs[1..][i] == jobs[i + 1];
        }
      }
      NoActiveCountsNone(jobs[1..], spider);
    }
  }

  lemma {:induction false} CountJobsAppend(jobs: seq<Job>, j: Job, spider: string, state: JobState)
    ensures CountJobs(jobs + [j], spider, state)
         == CountJobs(jobs, spider, state) + (if j.spider == spider && j.state == state then 1 else 0)
  {
    if jobs != [] {
      assert (jobs + [j])[1..] == jobs[1..] + [j];
      CountJobsAppend(jobs[1..], j, spider, state);
    }
  }

  /**
   * The scheduled count of a listing is the number of its jobs of that
   * spider that are pending or running: an empty listing counts 0, and
   * one more job adds 1 exactly when it is an active job of the spider.
   */
  lemma ScheduledJobsCountCountsActive(jobs: seq<Job>, j: Job, spider: string)
    ensures ScheduledJobsCount([], spider) == 0
    ensures ScheduledJobsCount(jobs + [j], spider)
         == ScheduledJobsCount(jobs, spider) + (if IsActive(j, spider) then 1 else 0)
    ensures ScheduledJobsCount(jobs, spider) <= |jobs|
  {
    CountJobsAppend(jobs, j, spider, Pending);
    CountJobsAppend(jobs, j, spider, Running);
    CountJobsDisjoint(jobs, spider);
  }

  lemma {:induction false} CountJobsDisjoint(jobs: seq<Job>, spider: string)
    ensures CountJobs(jobs, spider, Pending) + CountJobs(jobs, spider, Running) <= |jobs|
  {
    if jobs != [] {
      CountJobsDisjoint(jobs[1..], spider);
    }
  }

  function CallbackUrl(callbackBase: string, spider: string): string {
    callbackBase + "/" + spider + "_category_export"
  }

  function CallbackParams(chatId: int): string {
    ChatIdParam + IntToString(chatId)
  }

  /**
   * `category_export(url, chat_id, spider)`: refuse when more than
   * `threshold` jobs of the spider are scheduled, otherwise run one job
   * and return the link built from its key.
   */
  function CategoryExport(url: string, chatId: int, spider: string, jobs: seq<Job>,
                          threshold: int, callbackBase: string, runKey: Option<string>): (r: ExportOutcome)
    ensures r.QueueTooLong? <==> ScheduledJobsCount(jobs, spider) > threshold
    ensures r.SubmitFailed? <==> ScheduledJobsCount(jobs, spider) <= threshold && runKey.None?
    ensures r.Submitted? ==>
      && runKey.Some?
      && r.request.spider == spider
      && r.request.args.categoryUrl == url
      && r.request.args.callbackUrl == CallbackUrl(callbackBase, spider)
      && r.request.args.callbackParams == CallbackParams(chatId)
      && r.link == JobLinkPrefix + runKey.value
  {
    if ScheduledJobsCount(jobs, spider) > threshold then QueueTooLong
    else match runKey
      case None => SubmitFailed
      case Some(key) =>
        Submitted(JobRequest(spider, JobArgs(url, CallbackUrl(callbackBase, spider), CallbackParams(chatId))),
                  JobLinkPrefix + key)
  }

  /**
   * With the default threshold of one, a single active job of the spider
   * still lets a new export through, and a second one refuses it.
   */
  lemma DefaultThresholdAdmitsOneActiveJob(url: string, chatId: int, callbackBase: string, key: string)
    ensures CategoryExport(url, chatId, DefaultSpider, [Job(DefaultSpider, Running)],
                           DefaultJobsThreshold, callbackBase, Some(key)).Submitted?
    ensures CategoryExport(url, chatId, DefaultSpider, [Job(DefaultSpider, Running), Job(DefaultSpider, Pending)],
                           DefaultJobsThreshold, callbackBase, Some(key)).QueueTooLong?
  {
    var running, pending := Job(DefaultSpider, Running), Job(DefaultSpider, Pending);
    ScheduledJobsCountCountsActive([], running, DefaultSpider);
    assert [] + [running] == [running];
    ScheduledJobsCountCountsActive([running], pending, DefaultSpider);
    assert [running] + [pending] == [running, pending];
  }

  /** Reads the chat id back out of the `callback_params` text the export writes: the inverse of that writer. */
  function ParseCallbackParams(p: string): Option<int> {
    if |p| < |ChatIdParam| || p[..|ChatIdParam|] != ChatIdParam then None
    else ParseInt(p[|ChatIdParam|..])
  }

  /**
   * A submitted job carries the chat id so that it can be read back
   * from `callback_params`, and the returned link ends with the job key.
   */
  lemma SubmittedJobRoundTrip(url: string, chatId: int, spider: string, jobs: seq<Job>,
                              threshold: int, callbackBase: string, runKey: Option<string>)
    requires CategoryExport(url, chatId, spider, jobs, threshold, callbackBase, runKey).Submitted?
    ensures ParseCallbackParams(CategoryExport(url, chatId, spider, jobs, threshold, callbackBase, runKey)
                                  .request.args.callbackParams) == Some(chatId)
    ensures var link := CategoryExport(url, chatId, spider, jobs, threshold, callbackBase, runKey).link;
            link[|JobLinkPrefix|..] == runKey.value
  {
    CallbackParamsRoundTrip(chatId);
  }

  /** The chat id written into `callback_params` reads back unchanged, whatever its sign. */
  lemma CallbackParamsRoundTrip(chatId: int)
    ensures ParseCallbackParams(CallbackParams(chatId)) == Some(chatId)
  {
    var p := CallbackParams(chatId);
    assert p[..|ChatIdParam|] == ChatIdParam;
    assert p[|ChatIdParam|..] == IntToString(chatId);
    ParseIntToString(chatId);
  }

  // ---------------------------------------------------------------------
  // Marketplace detection from a job key
  // ---------------------------------------------------------------------

  datatype Marketplace = Wildberries | Ozon | UnknownMarketplace {
    /** The slug returned first by `detect_mp_by_job_id`; `None` is Python's None. */
    function Slug(): Option<string> {
      match this
      case Wildberries => Some("WB")
      case Ozon => Some("Ozon")
      case UnknownMarketplace => None
    }
    function DisplayName(): Option<string> {
      match this
      case Wildberries => Some("Wildberries")
      case Ozon => Some("Ozon")
      case UnknownMarketplace => None
    }
  }

  /** First index at or after `i` that is not a digit. */
  function DigitRunEnd(s: string, i: nat): (j: nat)
    requires i <= |s|
    ensures i <= j <= |s|
    ensures forall k :: i <= k < j ==> IsDigit(s[k])
    ensures j == |s| || !IsDigit(s[j])
    decreases |s| - i
  {
    if i < |s| && IsDigit(s[i]) then DigitRunEnd(s, i + 1) else i
  }

  lemma {:induction false} DigitRunEndAt(s: string, i: nat, p: nat)
    requires i <= p <= |s|
    requires forall k :: i <= k < p ==> IsDigit(s[k])
    requires p == |s| || !IsDigit(s[p])
    ensures DigitRunEnd(s, i) == p
    decreases p - i
  {
    if i < p {
      DigitRunEndAt(s, i + 1, p);
    }
  }

  /**
   * `s` matches `\d+/\d+/\d` at `i`, the first digit run being
   * `s[i..a]` and the second `s[a+1..b]`.
   */
  predicate IsMatch(s: string, i: nat, a: nat, b: nat) {
    && i < a < b < |s| - 1
    && (forall k :: i <= k < a ==> IsDigit(s[k]))
    && s[a] == '/'
    && a + 1 < b
    && (forall k :: a + 1 <= k < b ==> IsDigit(s[k]))
    && s[b] == '/'
    && IsDigit(s[b + 1])
  }

  /**
   * The group captured by `\d+/(\d+)/\d+` when a match starts at `i`.
   * A `/` cannot be a digit, so each greedy `\d+` before a `/` must take
   * the whole run of digits.
   */
  function MatchAt(s: string, i: nat): Option<string>
    requires i <= |s|
  {
    var a := DigitRunEnd(s, i);
    if a == i || a >= |s| || s[a] != '/' then None
    else
      var b := DigitRunEnd(s, a + 1);
      if b == a + 1 || b >= |s| - 1 || s[b] != '/' || !IsDigit(s[b + 1]) then None
      else Some(s[a + 1..b])
  }

  /** `MatchAt` finds exactly the matches of the pattern. */
  lemma MatchAtCharacterised(s: string, i: nat, a: nat, b: nat)
    requires i <= |s|
    ensures IsMatch(s, i, a, b) ==> MatchAt(s, i) == Some(s[a + 1..b])
    ensures MatchAt(s, i).Some? ==>
      var a' := DigitRunEnd(s, i);
      IsMatch(s, i, a', DigitRunEnd(s, a' + 1)) && MatchAt(s, i) == Some(s[a' + 1..DigitRunEnd(s, a' + 1)])
  {
    if IsMatch(s, i, a, b) {
      DigitRunEndAt(s, i, a);
      DigitRunEndAt(s, a + 1, b);
    }
  }

  /** Leftmost start at or after `i` where the pattern matches, as `re.findall` finds it first. */
  function FirstMatchFrom(s: string, i: nat): (r: Option<nat>)
    requires i <= |s|
    ensures r.Some? ==> i <= r.value < |s| && MatchAt(s, r.value).Some?
    ensures forall k :: i <= k <= |s| && (r.None? || k < r.value) ==> MatchAt(s, k).None?
    decreases |s| - i
  {
    if i == |s| then None
    else if MatchAt(s, i).Some? then Some(i)
    else FirstMatchFrom(s, i + 1)
  }

  /** `re.findall(r'\d+\/(\d+)\/\d+', s)[0]`, or `None` where that raises IndexError. */
  function FirstMiddleGroup(s: string): (r: Option<string>)
    ensures r.Some? <==> FirstMatchFrom(s, 0).Some?
    ensures r.None? ==> forall i :: 0 <= i <= |s| ==> MatchAt(s, i).None?
    ensures r.Some? ==>
      var i := FirstMatchFrom(s, 0).value;
      var a := DigitRunEnd(s, i);
      && IsMatch(s, i, a, DigitRunEnd(s, a + 1))
      && r.value == s[a + 1..DigitRunEnd(s, a + 1)]
      && r.value != [] && AllDigits(r.value)
  {
    match FirstMatchFrom(s, 0)
    case None => None
    case Some(i) =>
      MatchAtCharacterised(s, i, 0, 0);
      MatchAt(s, i)
  }

  /**
   * `detect_mp_by_job_id`: the middle group of the job key is compared
   * with the Wildberries spider id first, then with the Ozon spider id.
   * A key without a match raises.
   */
  function DetectMpByJobId(jobId: string, wbSpider: string, ozonSpider: string): (r: Result<Marketplace>)
    ensures r.Err? <==> FirstMiddleGroup(jobId).None?
    ensures r == Ok(Wildberries) <==> FirstMiddleGroup(jobId) == Some(wbSpider)
    ensures r == Ok(Ozon) <==> FirstMiddleGroup(jobId).Some? && FirstMiddleGroup(jobId) != Some(wbSpider)
                               && FirstMiddleGroup(jobId) == Some(ozonSpider)
  {
    match FirstMiddleGroup(jobId)
    case None => Err("list index out of range")
    case Some(spider) =>
      if spider == wbSpider then Ok(Wildberries)
      else if spider == ozonSpider then Ok(Ozon)
      else Ok(UnknownMarketplace)
  }

  /**
   * A job key `project/spider/job` made of three digit runs is
   * classified by its middle run.
   */
  lemma JobKeyMiddleSegment(project: string, spider: string, job: string)
    requires |project| >= 1 && |spider| >= 1 && |job| >= 1
    requires AllDigits(project) && AllDigits(spider) && AllDigits(job)
    ensures FirstMiddleGroup(project + "/" + spider + "/" + job) == Some(spider)
  {
    var s := project + "/" + spider + "/" + job;
    var a, b := |project|, |project| + 1 + |spider|;
    assert s[a + 1..b] == spider;
    assert IsMatch(s, 0, a, b) by {
      forall k | 0 <= k < a ensures IsDigit(s[k]) {
        assert s[k] == project[k];
      }
      forall k | a + 1 <= k < b ensures IsDigit(s[k]) {
        assert s[k] == spider[k - a - 1];
      }
      assert s[b + 1] == job[0];
    }
    MatchAtCharacterised(s, 0, a, b);
  }

  /** Cases of tests/test_helpers.py, with spider ids "1" (Wildberries) and "2" (Ozon). */
  lemma DetectMpWildberriesExample()
    ensures DetectMpByJobId("414324/1/818", "1", "2") == Ok(Wildberries)
  {
    var key := "414324/1/818";
    assert key == "414324" + "/" + "1" + "/" + "818";
    JobKeyMiddleSegment("414324", "1", "818");
    assert FirstMiddleGroup(key) == Some("1");
  }

  lemma DetectMpOzonExample()
    ensures DetectMpByJobId("414324/2/19", "1", "2") == Ok(Ozon)
  {
    var key := "414324/2/19";
    assert key == "414324" + "/" + "2" + "/" + "19";
    JobKeyMiddleSegment("414324", "2", "19");
    assert FirstMiddleGroup(key) == Some("2");
  }

  lemma DetectMpUnknownExample()
    ensures DetectMpByJobId("123123/4345/32", "1", "2") == Ok(UnknownMarketplace)
  {
    var key := "123123/4345/32";
    assert key == "123123" + "/" + "4345" + "/" + "32";
    JobKeyMiddleSegment("123123", "4345", "32");
    assert FirstMiddleGroup(key) == Some("4345");
  }

  /** A key with no digits at all has no match, and the lookup raises. */
  lemma DetectMpWithoutMatch(s: string, wbSpider: string, ozonSpider: string)
    requires forall k :: 0 <= k < |s| ==> !IsDigit(s[k])
    ensures DetectMpByJobId(s, wbSpider, ozonSpider).Err?
  {
    forall k | 0 <= k <= |s| ensures MatchAt(s, k).None? {
      assert DigitRunEnd(s, k) == k;
    }
  }

  // ---------------------------------------------------------------------
  // Rounding of integers
  // ---------------------------------------------------------------------

  /** Multiplying by a positive `p` and dividing again gives back `q`, with nothing left over. */
  lemma MulDivExact(q: int, p: nat)
    requires p > 0
    ensures (q * p) % p == 0 && (q * p) / p == q
  {
    var a := q * p;
    var x := q - a / p;
    assert a == p * (a / p) + a % p;
    assert p * x == a % p;
    assert x >= 1 ==> p * x >= p * 1;
    assert x <= -1 ==> p * x <= p * -1;
  }

  /** The quotient and remainder of `n / d`, and the remainder left by the next quotient. */
  lemma DivisionParts(n: int, d: nat)
    requires d > 0
    ensures 0 <= n % d < d
    ensures n - (n / d) * d == n % d
    ensures n - (n / d + 1) * d == n % d - d
  {
    assert n == (n / d) * d + n % d;
    assert (n / d + 1) * d == (n / d) * d + d;
  }

  /** Python's `round(n / d)`: the nearest integer, ties to the even one. */
  function RoundHalfEven(n: int, d: nat): (q: int)
    requires d > 0
    ensures -(d as int) <= 2 * (n - q * d) <= d
    ensures (2 * (n - q * d) == d || 2 * (n - q * d) == -(d as int)) ==> q % 2 == 0
  {
    DivisionParts(n, d);
    var q, r := n / d, n % d;
    if 2 * r < d then q
    else if 2 * r > d then q + 1
    else if q % 2 == 0 then q
    else q + 1
  }

  /** How far apart the remainders left by two quotients `q` and `p` of `n / d` are. */
  lemma RemainderShift(n: int, d: nat, q: int, p: int)
    requires d > 0
    ensures var e := q - p;
      && (n - q * d) == (n - p * d) - e * d
      && (e >= 1 ==> e * d >= d)
      && (e >= 2 ==> e * d >= 2 * d)
      && (e <= -1 ==> e * d <= -(d as int))
      && (e <= -2 ==> e * d <= -2 * d)
  {
    var e := q - p;
    assert q * d == p * d + e * d;
    if e >= 1 {
      assert e * d == (e - 1) * d + d;
      if e >= 2 {
        assert (e - 1) * d == (e - 2) * d + d;
      }
    } else if e <= -1 {
      assert e * d == (e + 1) * d - d;
      if e <= -2 {
        assert (e + 1) * d == (e + 2) * d - d;
      }
    }
  }

  /** The two properties above leave no other choice. */
  lemma RoundHalfEvenUnique(n: int, d: nat, q: int)
    requires d > 0
    requires -(d as int) <= 2 * (n - q * d) <= d
    requires (2 * (n - q * d) == d || 2 * (n - q * d) == -(d as int)) ==> q % 2 == 0
    ensures q == RoundHalfEven(n, d)
  {
    var p := RoundHalfEven(n, d);
    RemainderShift(n, d, q, p);
  }

  /** `m` is the multiple of `u` nearest to `n`, ties going to an even multiple. */
  predicate IsNearestMultiple(n: int, u: nat, m: int)
    requires u > 0
  {
    && m % u == 0
    && -(u as int) <= 2 * (m - n) <= u
    && (2 * (m - n) == u || 2 * (n - m) == u ==> (m / u) % 2 == 0)
  }

  lemma RoundHalfEvenMultiple(n: int, u: nat)
    requires u > 0
    ensures IsNearestMultiple(n, u, RoundHalfEven(n, u) * u)
  {
    MulDivExact(RoundHalfEven(n, u), u);
  }

  /** Python's `math.ceil(n / d)`. */
  function Ceil(n: int, d: nat): (q: int)
    requires d > 0
    ensures n <= q * d < n + d
  {
    var m := -n;
    assert m == d * (m / d) + m % d;
    -(m / d)
  }

  /** `len(str(abs(n)))`. */
  function Digits(n: int): nat {
    NumDigits(Abs(n))
  }

  /** A rounding result: the number to print and the value it stands for. */
  datatype Approx = Approx(rounded: int, natural: int)

  /** Bands of `smart_format_round` that produce one-decimal floats. */
  predicate IsDecimalBand(k: nat) {
    k == 7 || k == 8 || k == 10 || k == 11 || k == 13 || k == 14
  }

  /** The step `smart_format_round` rounds a `k`-digit number to. */
  function SmartRoundUnit(k: nat): (u: nat)
    ensures u >= 1
  {
    if k <= 1 || k > 15 then 1
    else if k <= 3 then 10
    else if k == 4 then 100
    else if k <= 6 then 1000
    else if k <= 9 then 1000000
    else if k <= 12 then 1000000000
    else 1000000000000
  }

  /**
   * `smart_format_round` on integers. The bands of 7-8, 10-11 and 13-14
   * digits round to one decimal and give floats: they are `None` here.
   * Elsewhere `natural` is the multiple of the band's unit nearest to
   * `n`, and `rounded` is `natural` itself up to four digits and beyond
   * fifteen, and `natural` counted in that unit (thousands, millions,
   * ...) for the other bands.
   */
  function SmartFormatRound(n: int): (r: Option<Approx>)
    ensures r.None? <==> IsDecimalBand(Digits(n))
    ensures r.Some? ==>
      var u := SmartRoundUnit(Digits(n));
      && IsNearestMultiple(n, u, r.value.natural)
      && r.value.rounded * (if Digits(n) <= 4 || Digits(n) > 15 then 1 else u) == r.value.natural
  {
    var k := Digits(n);
    if k == 1 || k > 15 then
      Some(Approx(n, n))
    else if k <= 3 then
      var v := RoundHalfEven(n, 10) * 10;
      RoundHalfEvenMultiple(n, 10);
      Some(Approx(v, v))
    else if k == 4 then
      var v := RoundHalfEven(n, 100) * 100;
      RoundHalfEvenMultiple(n, 100);
      Some(Approx(v, v))
    else if k <= 6 then
      var q := RoundHalfEven(n, 1000);
      RoundHalfEvenMultiple(n, 1000);
      Some(Approx(q, q * 1000))
    else if k == 9 then
      var q := RoundHalfEven(n, 1000000);
      RoundHalfEvenMultiple(n, 1000000);
      Some(Approx(q, q * 1000000))
    else if k == 12 then
      var q := RoundHalfEven(n, 1000000000);
      RoundHalfEvenMultiple(n, 1000000000);
      Some(Approx(q, q * 1000000000))
    else if k == 15 then
      var q := RoundHalfEven(n, 1000000000000);
      RoundHalfEvenMultiple(n, 1000000000000);
      Some(Approx(q, q * 1000000000000))
    else
      None
  }

  /** `diveder_degree` of `smart_format_round_hard`. */
  function HardDegree(k: nat): nat {
    if k <= 1 then 0 else if k % 3 == 0 then k - 2 else k - 1
  }

  function HardMultiplier(k: nat): nat {
    if k <= 1 || k % 3 == 1 then 1 else 10
  }

  /** `divider_degree` of `smart_format_round_super_hard`. */
  function SuperHardDegree(k: nat): nat {
    if k <= 1 then 0 else k - 1
  }

  function SuperHardMultiplier(k: nat): nat {
    if k <= 1 || k % 3 == 1 then 1 else if k % 3 == 2 then 10 else 100
  }

  /** Power of ten of the thousands unit that names a `k`-digit number (1, 10^3, 10^6, ...). */
  function ThousandsExponent(k: nat): nat {
    if k == 0 then 0 else 3 * ((k - 1) / 3)
  }

  lemma {:induction false} Pow10Add(a: nat, b: nat)
    ensures Pow10(a + b) == Pow10(a) * Pow10(b)
  {
    if a > 0 {
      Pow10Add(a - 1, b);
    }
  }

  /** The multipliers turn a count of `10^degree` steps into a count of thousands units. */
  lemma MultipliersScale(k: nat)
    ensures HardMultiplier(k) * Pow10(ThousandsExponent(k)) == Pow10(HardDegree(k))
    ensures SuperHardMultiplier(k) * Pow10(ThousandsExponent(k)) == Pow10(SuperHardDegree(k))
  {
    var e := ThousandsExponent(k);
    if k > 1 {
      if k % 3 == 1 {
        assert HardDegree(k) == e && SuperHardDegree(k) == e;
      } else if k % 3 == 2 {
        assert HardDegree(k) == e + 1 && SuperHardDegree(k) == e + 1;
        Pow10Add(e, 1);
      } else {
        assert HardDegree(k) == e + 1 && SuperHardDegree(k) == e + 2;
        Pow10Add(e, 1);
        Pow10Add(e, 2);
      }
    }
  }

  lemma MulAssoc(a: int, b: int, c: int)
    ensures a * b * c == a * (b * c)
  {
  }

  /**
   * `smart_format_round_hard`: `natural` is the multiple of `10^degree`
   * nearest to `n` (one or two leading significant digits), and
   * `rounded` is `natural` counted in thousands units.
   */
  function SmartFormatRoundHard(n: int): (r: Approx)
    ensures IsNearestMultiple(n, Pow10(HardDegree(Digits(n))), r.natural)
    ensures r.rounded * Pow10(ThousandsExponent(Digits(n))) == r.natural
  {
    var k := Digits(n);
    var p := Pow10(HardDegree(k));
    var q := RoundHalfEven(n, p);
    RoundHalfEvenMultiple(n, p);
    MultipliersScale(k);
    MulAssoc(q, HardMultiplier(k), Pow10(ThousandsExponent(k)));
    Approx(q * HardMultiplier(k), q * p)
  }

  /**
   * `smart_format_round_super_hard`: as the hard variant, but rounding up
   * to a multiple of `10^(digits-1)`, so `natural` is never below `n`.
   */
  function SmartFormatRoundSuperHard(n: int): (r: Approx)
    ensures var p := Pow10(SuperHardDegree(Digits(n)));
      r.natural % p == 0 && n <= r.natural < n + p
    ensures r.rounded * Pow10(ThousandsExponent(Digits(n))) == r.natural
  {
    var k := Digits(n);
    var p := Pow10(SuperHardDegree(k));
    var q := Ceil(n, p);
    MulDivExact(q, p);
    MultipliersScale(k);
    MulAssoc(q, SuperHardMultiplier(k), Pow10(ThousandsExponent(k)));
    Approx(q * SuperHardMultiplier(k), q * p)
  }

  /** Single-digit numbers come back unchanged from all three roundings. */
  lemma SingleDigitUnchanged(n: int)
    requires -10 < n < 10
    ensures SmartFormatRoundHard(n) == Approx(n, n)
    ensures SmartFormatRoundSuperHard(n) == Approx(n, n)
    ensures SmartFormatRound(n) == Some(Approx(n, n))
  {
    assert Digits(n) == 1;
  }
  // ---------------------------------------------------------------------
  // Printing
  // ---------------------------------------------------------------------

  const ThousandsNames: seq<string> := ["тыс.", "млн.", "млрд.", "трлн."]

  /**
   * `get_digits_text`: the name of the thousands unit of a number with
   * `numberLength` characters. Thousands are named from 4 characters on,
   * or from 5 when `skipThousands`; nothing is named beyond 15.
   */
  function GetDigitsText(numberLength: int, skipThousands: bool := true): (r: string)
    ensures r == (if (if skipThousands then 5 else 4) <= numberLength <= 15
                  then ThousandsNames[(numberLength - 1) / 3 - 1] else "")
  {
    if skipThousands && 4 < numberLength <= 6 then "тыс."
    else if !skipThousands && 3 < numberLength <= 6 then "тыс."
    else if 6 < numberLength <= 9 then "млн."
    else if 9 < numberLength <= 12 then "млрд."
    else if 12 < numberLength <= 15 then "трлн."
    else ""
  }

  /** `smart_format_prettify` on an integer: the digits grouped by three with spaces, sign in front. */
  function SmartFormatPrettify(n: int): (r: string)
    ensures RemoveSpaces(r) == IntToString(n)
  {
    var digits := NatToString(Abs(n));
    DigitsHaveNoSpace(digits);
    UngroupThousands(digits);
    if n < 0 then
      RemoveSpacesAppend("-", GroupThousands(digits));
      assert RemoveSpaces("-") == "-";
      "-" + GroupThousands(digits)
    else GroupThousands(digits)
  }

  /** After the sign, a space stands exactly every fourth place from the right. */
  lemma PrettifyShape(n: int)
    ensures var r, sign := SmartFormatPrettify(n), if n < 0 then 1 else 0;
      && sign <= |r|
      && (n < 0 ==> r[0] == '-')
      && |r| - sign == Digits(n) + (Digits(n) - 1) / 3
      && forall i :: sign <= i < |r| ==> (r[i] == ' ' <==> (|r| - i) % 4 == 0)
  {
    var digits := NatToString(Abs(n));
    DigitsHaveNoSpace(digits);
    GroupThousandsShape(digits);
    var g := GroupThousands(digits);
    var r := SmartFormatPrettify(n);
    if n < 0 {
      assert r == "-" + g;
      forall i | 1 <= i < |r| ensures r[i] == ' ' <==> (|r| - i) % 4 == 0 {
        assert r[i] == g[i - 1];
      }
    } else {
      assert r == g;
    }
  }

  /** Result of `smart_format_number`: the printed number and the unit name. */
  datatype Formatted = Formatted(pretty: string, unit: string)

  /**
   * `smart_format_number` on an integer, as written: the unit name is
   * looked up from `len(str(number))`, which counts the minus sign of a
   * negative number. `None` stands for the one-decimal float bands.
   */
  function SmartFormatNumberAsWritten(n: int): (r: Option<Formatted>)
    ensures r.Some? <==> SmartFormatNumber(n).Some?
    ensures r.Some? ==> r.value.pretty == SmartFormatNumber(n).value.pretty
    ensures n >= 0 ==> r == SmartFormatNumber(n)
    ensures r.Some? ==> r.value.unit == GetDigitsText(Digits(n) + (if n < 0 then 1 else 0))
  {
    match SmartFormatRound(n)
    case None => None
    case Some(a) => Some(Formatted(SmartFormatPrettify(a.rounded), GetDigitsText(|IntToString(n)|)))
  }

  /** For -123456 the printed number counts thousands but the unit says millions. */
  lemma NegativeUnitMismatch()
    ensures SmartFormatNumberAsWritten(123456) == Some(Formatted("123", "тыс."))
    ensures SmartFormatNumberAsWritten(-123456) == Some(Formatted("-123", "млн."))
  {
    assert Pow10(5) == 100000 && Pow10(6) == 1000000;
    NumDigitsFromBounds(123456, 6);
    assert Digits(-123456) == 6 && Digits(123456) == 6;
    assert |IntToString(-123456)| == 7 && |IntToString(123456)| == 6;
    assert RoundHalfEven(-123456, 1000) == -123;
    assert RoundHalfEven(123456, 1000) == 123;
    assert SmartFormatRound(-123456) == Some(Approx(-123, -123000));
    assert SmartFormatRound(123456) == Some(Approx(123, 123000));
    assert NatToString(123) == "123";
    assert SmartFormatPrettify(123) == "123";
    assert SmartFormatPrettify(-123) == "-123";
  }

  /**
   * `smart_format_number` with the unit name looked up from the digit
   * count of `|number|`, which is what the bands of `smart_format_round`
   * use.
   */
  function SmartFormatNumber(n: int): (r: Option<Formatted>)
    ensures r.Some? <==> !IsDecimalBand(Digits(n))
    ensures r.Some? ==> RemoveSpaces(r.value.pretty) == IntToString(SmartFormatRound(n).value.rounded)
    ensures r.Some? ==> r.value.unit == GetDigitsText(Digits(n))
  {
    match SmartFormatRound(n)
    case None => None
    case Some(a) => Some(Formatted(SmartFormatPrettify(a.rounded), GetDigitsText(Digits(n))))
  }

  /** In the corrected form the unit does not depend on the sign. */
  lemma SmartFormatNumberSignFree(n: int)
    requires SmartFormatNumber(n).Some?
    ensures SmartFormatNumber(-n).Some? && SmartFormatNumber(-n).value.unit == SmartFormatNumber(n).value.unit
  {
    assert Digits(-n) == Digits(n);
  }

  /**
   * In every band where `rounded` counts thousands units, the name is the
   * one of that unit.
   */
  lemma SmartFormatNumberUnit(n: int)
    requires SmartFormatNumber(n).Some?
    requires 5 <= Digits(n) <= 15
    ensures SmartFormatNumber(n).value.unit == ThousandsNames[ThousandsExponent(Digits(n)) / 3 - 1]
    ensures SmartRoundUnit(Digits(n)) == Pow10(ThousandsExponent(Digits(n)))
  {
    BandUnit(Digits(n));
  }

  /** In a band of 5 to 15 digits without decimals, the rounding step is the named thousands unit. */
  lemma BandUnit(k: nat)
    requires 5 <= k <= 15 && !IsDecimalBand(k)
    ensures GetDigitsText(k) == ThousandsNames[ThousandsExponent(k) / 3 - 1]
    ensures SmartRoundUnit(k) == Pow10(ThousandsExponent(k))
  {
    assert ThousandsExponent(k) / 3 == (k - 1) / 3;
    if k <= 6 {
      assert ThousandsExponent(k) == 3;
    } else if k == 9 {
      assert ThousandsExponent(k) == 6;
    } else if k == 12 {
      assert ThousandsExponent(k) == 9;
    } else {
      assert ThousandsExponent(k) == 12;
    }
  }
}
