/**
 * src/scrapinghub_helper.py: the Wildberries-only variant of the
 * category export. Its `scheduled_jobs_count` is the same function as
 * the one in src/helpers.py and is modelled by `Helpers.ScheduledJobsCount`.
 */
module ScrapinghubHelper {
  import opened Wrappers
  import opened Numerals
  import opened Helpers

  const WbSpider: string := "wb"
  const WbCallbackPath: string := "/wb_category_export"

  /**
   * `wb_category_export(url, chat_id)`: the queue of the `wb` spider is
   * checked against the threshold; at or under it one `wb` job is run.
   */
  function WbCategoryExport(url: string, chatId: int, jobs: seq<Job>, threshold: int,
                            callbackBase: string, runKey: Option<string>): (r: ExportOutcome)
    ensures r.QueueTooLong? <==> ScheduledJobsCount(jobs, WbSpider) > threshold
    ensures r.SubmitFailed? <==> ScheduledJobsCount(jobs, WbSpider) <= threshold && runKey.None?
    ensures r.Submitted? ==>
      && runKey.Some?
      && r.request == JobRequest(WbSpider, JobArgs(url, callbackBase + WbCallbackPath, ChatIdParam + IntToString(chatId)))
      && r.link == JobLinkPrefix + runKey.value
  {
    if ScheduledJobsCount(jobs, WbSpider) > threshold then QueueTooLong
    else match runKey
      case None => SubmitFailed
      case Some(key) =>
        Submitted(JobRequest(WbSpider, JobArgs(url, callbackBase + WbCallbackPath, ChatIdParam + IntToString(chatId))),
                  JobLinkPrefix + key)
  }

  /** It is `category_export` with the spider fixed to `wb`. */
  lemma WbCategoryExportIsCategoryExport(url: string, chatId: int, jobs: seq<Job>, threshold: int,
                                         callbackBase: string, runKey: Option<string>)
    ensures WbCategoryExport(url, chatId, jobs, threshold, callbackBase, runKey)
         == CategoryExport(url, chatId, WbSpider, jobs, threshold, callbackBase, runKey)
  {
    assert CallbackUrl(callbackBase, WbSpider) == callbackBase + WbCallbackPath;
  }
}
