/**
  The decisions of the chat dispatcher in main.py: paging the voice list into
  buttons, reading the payload of a pressed button, and the per-user voice
  selection with its fallback to the configured default voice.
*/
module Bot {
  import opened Wrappers
  import opened Decimal
  import opened VoiceClient

  /** An inline button: its label (None when neither name nor id is set) and its callback payload. */
  datatype Button = Button(text: Option<string>, callbackData: string)

  const DefaultPageSize: nat := 8

  const PagePrefix: string := "page:"
  const PickPrefix: string := "pick:"
  const RefreshData: string := "refresh"

  const PrevLabel: string := "⟵ Назад"
  const NextLabel: string := "Далее ⟶"
  const RefreshLabel: string := "Обновить"

  function Min(a: int, b: int): int {
    if a <= b then a else b
  }

  /** How an f-string renders an optional id: None becomes the text "None". */
  function IdText(id: Option<string>): string {
    match id
    case Some(s) => s
    case None => "None"
  }

  /** The button that picks voice `v`: labelled with its name, or its id when the name is empty. */
  function PickButton(v: Voice): (b: Button)
    ensures v.name != "" ==> b.text == Some(v.name)
    ensures v.name == "" ==> b.text == v.id
    ensures HasPrefix(b.callbackData, PickPrefix) && b.callbackData[|PickPrefix|..] == IdText(v.id)
  {
    Button(if v.name != "" then Some(v.name) else v.id, PickPrefix + IdText(v.id))
  }

  /** A navigation button that shows page `target`. */
  function PageButton(caption: string, target: int): Button {
    Button(Some(caption), PagePrefix + IntToString(target))
  }

  const RefreshButton: Button := Button(Some(RefreshLabel), RefreshData)

  /** Python's normalisation of a slice bound on a sequence of length n. */
  function SliceBound(i: int, n: nat): (j: nat)
    ensures j <= n
    ensures i >= 0 ==> j == Min(i, n)
    ensures i < 0 ==> j == (if i + n < 0 then 0 else i + n)
  {
    if i < 0 then (if i + n < 0 then 0 else i + n)
    else if i > n then n
    else i
  }

  /** Python's `s[lo:hi]`. */
  function PySlice<T>(s: seq<T>, lo: int, hi: int): seq<T> {
    var a := SliceBound(lo, |s|);
    var b := SliceBound(hi, |s|);
    if a < b then s[a..b] else []
  }

  /**
    The voices on page `page`: `voices[page*page_size : page*page_size+page_size]`.
    For a page from 0 on these are the voices at those positions that exist, and
    none once the page starts past the end of the list.
  */
  function PageSlice(voices: seq<Voice>, page: int, pageSize: nat): (r: seq<Voice>)
    requires pageSize > 0
    ensures |r| <= pageSize
    ensures page >= 0 ==>
      r == voices[Min(page * pageSize, |voices|)..Min(page * pageSize + pageSize, |voices|)]
    ensures page >= 0 && page * pageSize >= |voices| ==> r == []
  {
    PySlice(voices, page * pageSize, page * pageSize + pageSize)
  }

  /**
    `max(1, ceil(count / page_size))`: the least positive number of pages of
    `pageSize` voices that holds all `count` voices.
  */
  function TotalPages(count: nat, pageSize: nat): (t: nat)
    requires pageSize > 0
    ensures t >= 1
    ensures count <= t * pageSize
    ensures t == 1 || (t - 1) * pageSize < count
  {
    var q := (count + pageSize - 1) / pageSize;
    if q < 1 then 1 else q
  }

  /**
    `_paginate_buttons`: one row with a pick button per voice of the page, in
    order, then the navigation row: "previous" (to page-1) when page > 0, "next"
    (to page+1) when a later page exists, and "refresh" always, last.
  */
  method PaginateButtons(voices: seq<Voice>, page: int, pageSize: nat)
    returns (rows: seq<seq<Button>>, totalPages: nat)
    requires pageSize > 0
    ensures totalPages == TotalPages(|voices|, pageSize)
    ensures |rows| == |PageSlice(voices, page, pageSize)| + 1
    ensures forall i :: 0 <= i < |rows| - 1 ==> rows[i] == [PickButton(PageSlice(voices, page, pageSize)[i])]
    ensures var nav := rows[|rows| - 1];
      && |nav| == 1 + (if page > 0 then 1 else 0) + (if page + 1 < totalPages then 1 else 0)
      && nav[|nav| - 1] == RefreshButton
      && (PageButton(PrevLabel, page - 1) in nav <==> page > 0)
      && (PageButton(NextLabel, page + 1) in nav <==> page + 1 < totalPages)
      && (page > 0 ==> nav[0] == PageButton(PrevLabel, page - 1))
  {
    var start := page * pageSize;
    var end := start + pageSize;
    var pageVoices := PySlice(voices, start, end);
    rows := [];
    for i := 0 to |pageVoices|
      invariant |rows| == i
      invariant forall j :: 0 <= j < i ==> rows[j] == [PickButton(pageVoices[j])]
    {
      rows := rows + [[PickButton(pageVoices[i])]];
    }

    totalPages := TotalPages(|voices|, pageSize);
    var nav: seq<Button> := [];
    if page > 0 {
      nav := nav + [PageButton(PrevLabel, page - 1)];
    }
    if page + 1 < totalPages {
      nav := nav + [PageButton(NextLabel, page + 1)];
    }
    nav := nav + [RefreshButton];
    rows := rows + [nav];
  }

  /** The page the bot shows after a button press: the page asked for, or page 0 on "refresh". */
  function PageToShow(c: Callback): (page: Option<int>)
    ensures page.Some? <==> (c.ShowPage? && c.page.Some?) || c.Refresh?
    ensures c.ShowPage? ==> page == c.page
    ensures c.Refresh? ==> page == Some(0)
  {
    match c
    case ShowPage(p) => p
    case Refresh => Some(0)
    case _ => None
  }

  /**
    The keyboard every caller sends: `_paginate_buttons` with its default page
    size of 8. It has at most nine rows, the item rows of the page followed by
    the navigation row, which ends with "refresh".
  */
  method VoiceKeyboard(voices: seq<Voice>, page: int) returns (rows: seq<seq<Button>>)
    ensures 1 <= |rows| <= DefaultPageSize + 1
    ensures |rows| == |PageSlice(voices, page, DefaultPageSize)| + 1
    ensures forall i :: 0 <= i < |rows| - 1 ==>
      rows[i] == [PickButton(PageSlice(voices, page, DefaultPageSize)[i])]
    ensures |rows[|rows| - 1]| >= 1 && rows[|rows| - 1][|rows[|rows| - 1]| - 1] == RefreshButton
  {
    var totalPages;
    rows, totalPages := PaginateButtons(voices, page, DefaultPageSize);
  }

  /** A navigation button shows the page it names. */
  lemma NavButtonShowsTarget(caption: string, target: int)
    ensures PageToShow(ParseCallback(PageButton(caption, target).callbackData)) == Some(target)
  {
    PageButtonRoundTrip(caption, target);
  }

  /** The refresh button shows the first page again. */
  lemma RefreshButtonShowsFirstPage()
    ensures PageToShow(ParseCallback(RefreshButton.callbackData)) == Some(0)
  {
    RefreshButtonRoundTrip();
  }

  /** A voice's pick button shows no page. */
  lemma PickButtonShowsNoPage(v: Voice)
    ensures PageToShow(ParseCallback(PickButton(v).callbackData)) == None
  {
    PickButtonRoundTrip(v);
  }

  /** The concatenation of pages 0 to k-1. */
  function PagesBefore(voices: seq<Voice>, pageSize: nat, k: nat): seq<Voice>
    requires pageSize > 0
  {
    if k == 0 then [] else PagesBefore(voices, pageSize, k - 1) + PageSlice(voices, k - 1, pageSize)
  }

  lemma {:induction false} PagesBeforeIsPrefix(voices: seq<Voice>, pageSize: nat, k: nat)
    requires pageSize > 0
    ensures PagesBefore(voices, pageSize, k) == voices[..Min(k * pageSize, |voices|)]
  {
    if k > 0 {
      PagesBeforeIsPrefix(voices, pageSize, k - 1);
      var start := (k - 1) * pageSize;
      assert start + pageSize == k * pageSize;
      var a, b := Min(start, |voices|), Min(k * pageSize, |voices|);
      assert PageSlice(voices, k - 1, pageSize) == voices[a..b];
      assert voices[..a] + voices[a..b] == voices[..b];
    }
  }

  /** The pages 0 to total_pages-1, one after another, give back the whole voice list. */
  lemma PagesRebuildList(voices: seq<Voice>, pageSize: nat)
    requires pageSize > 0
    ensures PagesBefore(voices, pageSize, TotalPages(|voices|, pageSize)) == voices
  {
    PagesBeforeIsPrefix(voices, pageSize, TotalPages(|voices|, pageSize));
  }

  lemma MulMonotone(a: int, b: int, c: nat)
    requires a <= b
    ensures a * c <= b * c
  {
  }

  /** No positive page count smaller than total_pages holds all the voices. */
  lemma TotalPagesIsLeast(count: nat, pageSize: nat, t: nat)
    requires pageSize > 0 && t >= 1 && count <= t * pageSize
    ensures TotalPages(count, pageSize) <= t
  {
    var total := TotalPages(count, pageSize);
    if total > t {
      MulMonotone(t, total - 1, pageSize);
    }
  }

  /** For a page from 0 on, of a non-empty list: the page has voices exactly when it is below total_pages. */
  lemma PageHasVoicesIffInRange(voices: seq<Voice>, page: nat, pageSize: nat)
    requires pageSize > 0 && voices != []
    ensures PageSlice(voices, page, pageSize) != [] <==> page < TotalPages(|voices|, pageSize)
  {
    var total := TotalPages(|voices|, pageSize);
    if page < total {
      MulMonotone(page, total - 1, pageSize);
    } else {
      MulMonotone(total, page, pageSize);
    }
  }

  /** `s.split(":", 1)[1]`: everything after the first colon. */
  function AfterFirstColon(s: string): string
    requires ':' in s
  {
    if s[0] == ':' then s[1..] else AfterFirstColon(s[1..])
  }

  lemma {:induction false} AfterFirstColonOfPrefix(prefix: string, rest: string)
    requires |prefix| > 0 && prefix[|prefix| - 1] == ':' && ':' !in prefix[..|prefix| - 1]
    ensures ':' in prefix + rest
    ensures AfterFirstColon(prefix + rest) == rest
  {
    var s := prefix + rest;
    assert s[|prefix| - 1] == ':';
    if |prefix| > 1 {
      assert prefix[0] in prefix[..|prefix| - 1];
      var tail := prefix[1..];
      assert tail[..|tail| - 1] == prefix[1..|prefix| - 1];
      AfterFirstColonOfPrefix(tail, rest);
      assert s[1..] == tail + rest;
    }
  }

  /** What a pressed button asks for. */
  datatype Callback =
    | ShowPage(page: Option<int>)  // "page:<n>"; None where int() would raise
    | Refresh
    | Pick(voiceId: string)
    | Ignored

  predicate HasPrefix(s: string, prefix: string) {
    |prefix| <= |s| && s[..|prefix|] == prefix
  }

  /** The branch `on_callback` takes on a payload. */
  function ParseCallback(data: string): (c: Callback)
    ensures c.ShowPage? <==> HasPrefix(data, PagePrefix)
    ensures c.ShowPage? ==> c.page == ParseInt(data[|PagePrefix|..])
    ensures c.Refresh? <==> data == RefreshData
    ensures c.Pick? <==> HasPrefix(data, PickPrefix)
    ensures c.Pick? ==> data == PickPrefix + c.voiceId
  {
    if HasPrefix(data, PagePrefix) then
      AfterFirstColonOfPrefix(PagePrefix, data[|PagePrefix|..]);
      assert data == PagePrefix + data[|PagePrefix|..];
      ShowPage(ParseInt(AfterFirstColon(data)))
    else if data == RefreshData then
      Refresh
    else if HasPrefix(data, PickPrefix) then
      AfterFirstColonOfPrefix(PickPrefix, data[|PickPrefix|..]);
      assert data == PickPrefix + data[|PickPrefix|..];
      Pick(AfterFirstColon(data))
    else
      Ignored
  }

  /** A navigation button leads to the page it names. */
  lemma PageButtonRoundTrip(caption: string, target: int)
    ensures ParseCallback(PageButton(caption, target).callbackData) == ShowPage(Some(target))
  {
    var data := PagePrefix + IntToString(target);
    assert data[..|PagePrefix|] == PagePrefix;
    AfterFirstColonOfPrefix(PagePrefix, IntToString(target));
    IntToStringRoundTrip(target);
  }

  lemma RefreshButtonRoundTrip()
    ensures ParseCallback(RefreshButton.callbackData) == Refresh
  {
  }

  /** The pick button of a voice carries its id, however many colons the id holds. */
  lemma PickButtonRoundTrip(v: Voice)
    ensures ParseCallback(PickButton(v).callbackData) == Pick(IdText(v.id))
  {
  }

  /**
    The voice used for a text message: the user's stored pick when there is one
    and it is not empty, otherwise the configured default.
  */
  function ResolveVoice(selected: map<int, string>, userId: int, defaultVoiceId: string): (v: string)
    ensures v == defaultVoiceId || (userId in selected && v == selected[userId] && v != "")
    ensures userId !in selected ==> v == defaultVoiceId
    ensures userId in selected && selected[userId] != "" ==> v == selected[userId]
    ensures userId in selected && selected[userId] == "" ==> v == defaultVoiceId
  {
    if userId in selected && selected[userId] != "" then selected[userId] else defaultVoiceId
  }

  /** A pick is what that user's next message is spoken with (the default if the pick is empty). */
  lemma ResolveAfterSelect(selected: map<int, string>, userId: int, voiceId: string, defaultVoiceId: string)
    ensures ResolveVoice(selected[userId := voiceId], userId, defaultVoiceId)
            == if voiceId != "" then voiceId else defaultVoiceId
  {
  }

  /** A pick by one user changes nothing for any other user. */
  lemma SelectKeepsOthers(selected: map<int, string>, userId: int, other: int, voiceId: string,
                          defaultVoiceId: string)
    requires other != userId
    ensures ResolveVoice(selected[userId := voiceId], other, defaultVoiceId)
            == ResolveVoice(selected, other, defaultVoiceId)
  {
  }

  /** Pressing the pick button of a voice with an id makes that id the user's voice. */
  lemma PickButtonSelectsVoice(v: Voice, selected: map<int, string>, userId: int, defaultVoiceId: string)
    requires Truthy(v.id)
    ensures var c := ParseCallback(PickButton(v).callbackData);
      c == Pick(v.id.value) && ResolveVoice(selected[userId := c.voiceId], userId, defaultVoiceId) == v.id.value
  {
  }

  /** The process-wide table of picks: user id to voice id, never evicted. */
  class UserState {
    var selected: map<int, string>

    constructor ()
      ensures selected == map[]
    {
      selected := map[];
    }

    /**
      `on_callback` as far as state goes: a missing payload reads as "", and a
      "pick:" payload stores everything after the first colon as the user's voice,
      overwriting an earlier pick. Nothing else changes the table.
    */
    method OnCallback(data: Option<string>, userId: int) returns (c: Callback)
      modifies this
      ensures c == ParseCallback(if data.Some? then data.value else "")
      ensures c.Pick? ==> selected == old(selected)[userId := c.voiceId]
      ensures !c.Pick? ==> selected == old(selected)
    {
      var payload := if data.Some? then data.value else "";
      c := ParseCallback(payload);
      if c.Pick? {
        selected := selected[userId := c.voiceId];
      }
    }
  }
}
