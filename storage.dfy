/**
 * The storage side of the workflows: `Utils::AddReview` of
 * use_cases/web_availability/add_review.rb inserts one `(owner, url)` row
 * per call. The Postgres request itself is not modelled; a workflow's log
 * records the rows it would insert, interleaved with its replies.
 */
module Storage {
  import opened Chat

  /** The config hash given to `AddReview.new`: `{connection:, owner:, url:}` or `{connection:, owner:, data:}`. */
  datatype SaveConfig = SaveConfig(connection: string, owner: Target, url: Option<string>, data: Option<string>)

  /** A row of `INSERT INTO websites (owner, url)`, the url NULL when nil. */
  datatype Row = Row(owner: Target, url: Option<string>)

  /** One thing a workflow handler does: reply through the bot, or insert a row. */
  datatype Event = Reply(to: Target, text: string) | Insert(row: Row)

  /** `build_query`: the query parameters are `config[:owner]` and `config[:url]`. */
  function InsertedRow(config: SaveConfig): (r: Row)
    ensures r.owner == config.owner && r.url == config.url
  {
    Row(config.owner, config.url)
  }

  /** The `:data` key does not reach the query at all. */
  lemma DataNeverInserted(config: SaveConfig, other: Option<string>)
    ensures InsertedRow(config) == InsertedRow(config.(data := other))
  {
  }

  /** The replies of a log, in order. */
  function Replies(log: seq<Event>): (r: seq<Event>)
    ensures |r| <= |log|
    ensures forall e | e in r :: e.Reply? && e in log
  {
    if log == [] then []
    else if log[0].Reply? then [log[0]] + Replies(log[1..])
    else Replies(log[1..])
  }

  /** The rows of a log, in order. */
  function Inserts(log: seq<Event>): (r: seq<Row>)
    ensures |r| <= |log|
    ensures forall row | row in r :: Insert(row) in log
  {
    if log == [] then []
    else if log[0].Insert? then [log[0].row] + Inserts(log[1..])
    else Inserts(log[1..])
  }
}
