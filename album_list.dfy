/**
 * The album list page: the albums of the current page and search, the pager,
 * and the dialog that creates or edits an album. The server's replies and
 * `new Date(d).toISOString()` are parameters; None stands for a failed call
 * or a thrown error.
 */
module AlbumList {
  import opened Wrappers
  import opened Text
  import opened Numeric

  const PageSize := 20

  const NameRequired := "请输入专辑名称"
  const Updated := "专辑更新成功"
  const Created := "专辑创建成功"
  const SaveFailed := "保存专辑失败"

  /** An album as listed; a field the server left out is None. */
  datatype AlbumRow = AlbumRow(id: string, name: Option<string>, artistName: Option<string>,
                               coverUrl: Option<string>, releaseDate: Option<string>)

  datatype AlbumForm = AlbumForm(name: string, artistName: string, coverUrl: string, releaseDate: string)

  const EmptyForm := AlbumForm("", "", "", "")

  /** The body sent on save; an empty date is sent as null. */
  datatype SubmitData = SubmitData(name: string, artistName: string, coverUrl: string, releaseDate: Option<string>)

  datatype Submission = Update(id: string, data: SubmitData) | Create(data: SubmitData)

  /** The list request: the page, the page size, and the search text when there is one. */
  datatype ListParams = ListParams(page: int, pageSize: int, q: Option<string>)

  /** `x || ''`. */
  function OrEmpty(x: Option<string>): string {
    if x.Some? then x.value else ""
  }

  /** `d.split('T')[0]`: the text before the first `T`, or all of it. */
  function DatePart(d: string): (r: string)
    ensures 'T' !in r && StartsWith(d, r)
    ensures |r| < |d| ==> d[|r|] == 'T'
  {
    if 'T' in d then d[..IndexOf(d, 'T')] else d
  }

  /** Cutting at `T` twice is cutting once. */
  lemma DatePartIdempotent(d: string)
    ensures DatePart(DatePart(d)) == DatePart(d)
  {
  }

  /** The form `handleOpenModal` fills in for an album: each field or '', and the date without its time. */
  function FormOf(a: AlbumRow): (f: AlbumForm)
    ensures f.name == OrEmpty(a.name) && f.artistName == OrEmpty(a.artistName) && f.coverUrl == OrEmpty(a.coverUrl)
    ensures a.releaseDate.Some? && a.releaseDate.value != "" ==> f.releaseDate == DatePart(a.releaseDate.value)
    ensures a.releaseDate.None? || a.releaseDate.value == "" ==> f.releaseDate == ""
  {
    AlbumForm(OrEmpty(a.name), OrEmpty(a.artistName), OrEmpty(a.coverUrl),
              if a.releaseDate.Some? && a.releaseDate.value != "" then DatePart(a.releaseDate.value) else "")
  }

  /** `Math.ceil(total / pageSize)`. */
  function TotalPages(total: int): (n: int)
    ensures (n - 1) * PageSize < total <= n * PageSize
    ensures total > 0 ==> n >= 1
    ensures total <= 0 ==> n <= 0
  {
    CeilDiv(total, PageSize)
  }

  /** The pager is drawn only when there is more than one page, that is for more than one page of albums. */
  lemma PagerShownIff(total: int)
    ensures TotalPages(total) > 1 <==> total > PageSize
  {
  }

  class Page {
    var albums: seq<AlbumRow>
    var page: int
    var total: int
    var searchQuery: string
    var showModal: bool
    var editing: Option<AlbumRow>
    var form: AlbumForm
    /** The text of the last alert shown, if any. */
    var alerted: Option<string>

    constructor ()
      ensures albums == [] && page == 1 && total == 0 && searchQuery == ""
      ensures !showModal && editing == None && form == EmptyForm && alerted == None
    {
      albums, page, total, searchQuery := [], 1, 0, "";
      showModal, editing, form, alerted := false, None, EmptyForm, None;
    }

    /** The current page lies in the pager's range. */
    predicate InRange()
      reads this
    {
      1 <= page <= TotalPages(total)
    }

    /** The request `fetchAlbums` makes. */
    function Params(): (p: ListParams)
      reads this
      ensures p.page == page && p.pageSize == PageSize
      ensures p.q.Some? <==> searchQuery != ""
      ensures p.q.Some? ==> p.q.value == searchQuery
    {
      ListParams(page, PageSize, if searchQuery != "" then Some(searchQuery) else None)
    }

    /** A reply without error replaces the albums and the total (missing ones give none and zero). */
    method ReceiveList(reply: Option<(Option<seq<AlbumRow>>, Option<int>)>)
      modifies this
      ensures reply.Some? ==>
        albums == (if reply.value.0.Some? then reply.value.0.value else []) &&
        total == (if reply.value.1.Some? then reply.value.1.value else 0)
      ensures reply.None? ==> albums == old(albums) && total == old(total)
      ensures page == old(page) && searchQuery == old(searchQuery) && showModal == old(showModal)
      ensures editing == old(editing) && form == old(form) && alerted == old(alerted)
    {
      if reply.Some? {
        albums := if reply.value.0.Some? then reply.value.0.value else [];
        total := if reply.value.1.Some? then reply.value.1.value else 0;
      }
    }

    /** `handleSearch`: a new search text starts again from the first page. */
    method HandleSearch(q: string)
      modifies this
      ensures searchQuery == q && page == 1
      ensures albums == old(albums) && total == old(total) && showModal == old(showModal)
      ensures editing == old(editing) && form == old(form) && alerted == old(alerted)
    {
      searchQuery := q;
      page := 1;
    }

    /** The previous-page button: one page back, never below the first. */
    method PreviousPage()
      modifies this
      ensures page == if old(page) - 1 < 1 then 1 else old(page) - 1
      ensures total == old(total) && searchQuery == old(searchQuery) && albums == old(albums)
      ensures showModal == old(showModal) && editing == old(editing) && form == old(form) && alerted == old(alerted)
      ensures old(InRange()) ==> InRange()
    {
      page := if page - 1 < 1 then 1 else page - 1;
    }

    /** The next-page button: one page on, never beyond the last. */
    method NextPage()
      modifies this
      ensures page == if TotalPages(total) < old(page) + 1 then TotalPages(total) else old(page) + 1
      ensures total == old(total) && searchQuery == old(searchQuery) && albums == old(albums)
      ensures showModal == old(showModal) && editing == old(editing) && form == old(form) && alerted == old(alerted)
      ensures old(InRange()) ==> InRange()
    {
      var last := TotalPages(total);
      page := if last < page + 1 then last else page + 1;
    }

    /** `handleOpenModal`: an album's fields, or an empty form for a new one; the dialog opens. */
    method HandleOpenModal(album: Option<AlbumRow>)
      modifies this
      ensures showModal && editing == album
      ensures form == if album.Some? then FormOf(album.value) else EmptyForm
      ensures albums == old(albums) && page == old(page) && total == old(total)
      ensures searchQuery == old(searchQuery) && alerted == old(alerted)
    {
      editing := album;
      form := if album.Some? then FormOf(album.value) else EmptyForm;
      showModal := true;
    }

    /** `handleCloseModal`: the dialog closes and forgets the album and the form. */
    method HandleCloseModal()
      modifies this
      ensures !showModal && editing == None && form == EmptyForm
      ensures albums == old(albums) && page == old(page) && total == old(total)
      ensures searchQuery == old(searchQuery) && alerted == old(alerted)
    {
      showModal := false;
      editing := None;
      form := EmptyForm;
    }

    /**
     * `handleSubmit`: a name of only white space is refused before anything
     * is sent. Otherwise the date, when there is one, is converted; a date
     * that does not convert throws before the call. The update or the
     * creation is sent; success closes the dialog, any failure alerts.
     */
    method HandleSubmit(toIso: string -> Option<string>, callOk: bool) returns (sent: Option<Submission>)
      modifies this
      ensures TrimJs(old(form).name) == "" ==>
        sent == None && alerted == Some(NameRequired) && form == old(form) && showModal == old(showModal)
      ensures sent.Some? ==>
        TrimJs(old(form).name) != "" &&
        sent.value.data.name == old(form).name && sent.value.data.artistName == old(form).artistName &&
        sent.value.data.coverUrl == old(form).coverUrl &&
        (old(form).releaseDate == "" ==> sent.value.data.releaseDate == None) &&
        (old(form).releaseDate != "" ==> sent.value.data.releaseDate == toIso(old(form).releaseDate)) &&
        (sent.value.Update? <==> old(editing).Some?) &&
        (sent.value.Update? ==> sent.value.id == old(editing).value.id)
      ensures TrimJs(old(form).name) != "" && old(form).releaseDate != "" && toIso(old(form).releaseDate).None? ==>
        sent == None && alerted == Some(SaveFailed)
      ensures sent.Some? && callOk ==>
        alerted == Some(if sent.value.Update? then Updated else Created) && !showModal && editing == None && form == EmptyForm
      ensures sent.Some? && !callOk ==> alerted == Some(SaveFailed)
      ensures sent.None? <==>
        TrimJs(old(form).name) == "" || (old(form).releaseDate != "" && toIso(old(form).releaseDate).None?)
      ensures sent.None? || !callOk ==> form == old(form) && editing == old(editing) && showModal == old(showModal)
      ensures albums == old(albums) && page == old(page) && total == old(total) && searchQuery == old(searchQuery)
    {
      if TrimJs(form.name) == "" {
        alerted := Some(NameRequired);
        return None;
      }
      var date: Option<string> := None;
      if form.releaseDate != "" {
        date := toIso(form.releaseDate);
        if date.None? {
          alerted := Some(SaveFailed);
          return None;
        }
      }
      var data := SubmitData(form.name, form.artistName, form.coverUrl, date);
      var s := if editing.Some? then Update(editing.value.id, data) else Create(data);
      sent := Some(s);
      if !callOk {
        alerted := Some(SaveFailed);
        return;
      }
      alerted := Some(if s.Update? then Updated else Created);
      HandleCloseModal();
    }
  }

  /** One page back and one page on returns to the same page from any page after the first. */
  method BackAndForth(p: Page)
    requires 1 < p.page <= TotalPages(p.total)
    modifies p
    ensures p.page == old(p.page)
  {
    p.PreviousPage();
    p.NextPage();
  }
}
