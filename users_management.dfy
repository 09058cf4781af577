/**
 * The user administration page: the page of users, the pager, the reading
 * of the list reply, and the labels shown for roles and statuses. The
 * option lists for the labels live in a module that is not part of this
 * model, so they are a parameter.
 */
module UsersManagement {
  import opened Wrappers
  import opened Numeric

  const PageSize := 10
  const UnknownRole := "未知角色"
  const UnknownStatus := "未知状态"

  datatype Row = Row(id: string, username: string, email: string, role: string, status: string)

  /** `payload.data.data` as received: an array, an object (with its `data` if that is an array, and its `total`), or anything else. */
  datatype Payload = ArrayData(rows: seq<Row>) | ObjectData(inner: Option<seq<Row>>, total: Option<int>) | OtherData

  /** What ends up in the `users` state: an array of rows, or the reply object itself. */
  datatype Items = Rows(rows: seq<Row>) | WholeObject(payload: Payload)

  /**
   * The parsing as written: for an object whose `data` is an array, the
   * object itself becomes the items, and `total ?? items.length` reads the
   * object's missing `length` (None).
   */
  function ParseAsWritten(p: Payload): (r: (Items, Option<int>))
    ensures p.ArrayData? ==> r == (Rows(p.rows), Some(|p.rows|))
    ensures p.ObjectData? && p.inner.Some? ==> r == (WholeObject(p), p.total)
    ensures !p.ArrayData? && !(p.ObjectData? && p.inner.Some?) ==> r == (Rows([]), Some(0))
  {
    match p
    case ArrayData(rows) => (Rows(rows), Some(|rows|))
    case ObjectData(inner, total) =>
      if inner.Some? then (WholeObject(p), total) else (Rows([]), Some(0))
    case OtherData => (Rows([]), Some(0))
  }

  /** As written, a reply of the shape `{data: [...], total}` never yields an array of rows, whatever rows it carries. */
  lemma AsWrittenDropsRows(rows: seq<Row>, total: Option<int>)
    ensures !ParseAsWritten(ObjectData(Some(rows), total)).0.Rows?
    ensures total.None? ==> ParseAsWritten(ObjectData(Some(rows), total)).1.None?
  {
  }

  /** The parsing the comments describe: the object's `data` array is the items; the total falls back to its length. */
  function Parse(p: Payload): (r: (seq<Row>, int))
    ensures p.ArrayData? ==> r == (p.rows, |p.rows|)
    ensures p.ObjectData? && p.inner.Some? ==>
      r.0 == p.inner.value && r.1 == (if p.total.Some? then p.total.value else |p.inner.value|)
    ensures !p.ArrayData? && !(p.ObjectData? && p.inner.Some?) ==> r == ([], 0)
  {
    match p
    case ArrayData(rows) => (rows, |rows|)
    case ObjectData(inner, total) =>
      if inner.Some? then (inner.value, if total.Some? then total.value else |inner.value|) else ([], 0)
    case OtherData => ([], 0)
  }

  /** The two readings agree on arrays and on anything else; they differ only on the object shape. */
  lemma ParseAgreesOffObjects(p: Payload)
    requires !(p.ObjectData? && p.inner.Some?)
    ensures ParseAsWritten(p) == (Rows(Parse(p).0), Some(Parse(p).1))
  {
  }

  /** `Math.max(1, Math.ceil(total / pageSize))`: never below one page. */
  function TotalPages(total: int): (n: int)
    ensures n >= 1
    ensures total > 0 ==> (n - 1) * PageSize < total <= n * PageSize
    ensures total <= 0 ==> n == 1
  {
    var c := CeilDiv(total, PageSize);
    if c < 1 then 1 else c
  }

  /** An option of a select list: the value it stands for and the text shown. */
  datatype Choice = Choice(value: string, text: string)

  /** `options.find(o => o.value === v)?.label || fallback`. */
  function Label(options: seq<Choice>, v: string, fallback: string): (r: string)
    ensures (forall i :: 0 <= i < |options| ==> options[i].value != v) ==> r == fallback
    ensures forall k :: 0 <= k < |options| && options[k].value == v && (forall i :: 0 <= i < k ==> options[i].value != v) ==>
      r == (if options[k].text != "" then options[k].text else fallback)
  {
    if options == [] then fallback
    else if options[0].value == v then (if options[0].text != "" then options[0].text else fallback)
    else
      var r := Label(options[1..], v, fallback);
      assert forall k :: 1 <= k < |options| ==> options[k] == options[1..][k - 1];
      r
  }

  class Page {
    var users: seq<Row>
    var total: int
    var page: int
    var query: string

    constructor ()
      ensures users == [] && total == 0 && page == 1 && query == ""
    {
      users, total, page, query := [], 0, 1, "";
    }

    predicate InRange()
      reads this
    {
      1 <= page <= TotalPages(total)
    }

    /** The previous button is disabled from the first page down. */
    function PreviousDisabled(): (b: bool)
      reads this
      ensures b <==> page <= 1
    {
      page <= 1
    }

    /** The next button is disabled from the last page up. */
    function NextDisabled(): (b: bool)
      reads this
      ensures b <==> page >= TotalPages(total)
    {
      page >= TotalPages(total)
    }

    /** A click on the previous button: one page back unless it is disabled. */
    method PreviousPage()
      modifies this
      ensures page == if old(PreviousDisabled()) then old(page) else old(page) - 1
      ensures users == old(users) && total == old(total) && query == old(query)
      ensures old(InRange()) ==> InRange()
    {
      if !PreviousDisabled() {
        page := page - 1;
      }
    }

    /** A click on the next button: one page on unless it is disabled. */
    method NextPage()
      modifies this
      ensures page == if old(NextDisabled()) then old(page) else old(page) + 1
      ensures users == old(users) && total == old(total) && query == old(query)
      ensures old(InRange()) ==> InRange()
    {
      if !NextDisabled() {
        page := page + 1;
      }
    }

    /** The search settles: the query is taken and the list starts again from the first page. */
    method SearchSettled(q: string)
      modifies this
      ensures query == q && page == 1
      ensures users == old(users) && total == old(total)
    {
      query := q;
      if page != 1 {
        page := 1;
      }
    }

    /** `fetchUsers`: a reply is parsed into the rows and the total; a failed call clears both. */
    method ReceiveUsers(reply: Option<Payload>)
      modifies this
      ensures reply.Some? ==> users == Parse(reply.value).0 && total == Parse(reply.value).1
      ensures reply.None? ==> users == [] && total == 0
      ensures page == old(page) && query == old(query)
    {
      if reply.None? {
        users, total := [], 0;
        return;
      }
      var items: seq<Row> := [];
      var totalCount := 0;
      match reply.value {
        case ArrayData(rows) =>
          items, totalCount := rows, |rows|;
        case ObjectData(inner, t) =>
          if inner.Some? {
            items := inner.value;
            totalCount := if t.Some? then t.value else |items|;
          }
        case OtherData =>
      }
      users, total := items, totalCount;
    }
  }
}
