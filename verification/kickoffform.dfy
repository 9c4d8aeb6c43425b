/** The kick-off form component: its local state, the handlers that update it, and the
    submission that creates a campaign and refreshes the user's campaigns. */
module KickOffForm {
  import opened Common
  import opened Decimal
  import opened DateText
  import opened FormRules
  import opened CampaignDocs
  import opened CampaignSlice
  import opened CampaignThunks

  /** The values the form registers: project name, goal, description and the chosen files. */
  datatype FormValues = FormValues(projectName: string, goal: string, about: string, file: seq<FileData>)

  /** The form's rules: each text field required and matching its pattern, a file chosen. */
  predicate FormValid(v: FormValues)
    ensures FormValid(v) ==>
              && AllDigits(v.goal) && ParseDecimal(v.goal) >= 1
              && HasLetter(v.projectName) && HasLetter(v.about) && |v.file| >= 1
  {
    TextFieldValid(v.projectName) && GoalValid(v.goal) && TextFieldValid(v.about) && |v.file| >= 1
  }

  /** What the component dispatches: a campaign-slice action, or the modal slice's
      `closeModal` (that slice is not part of this model). */
  datatype Dispatched = Store(action: Action) | CloseModal

  /** The campaign-slice actions of a dispatch log, in order. */
  function StoreActions(log: seq<Dispatched>): seq<Action>
    decreases |log|
  {
    if log == [] then []
    else (if log[0].Store? then [log[0].action] else []) + StoreActions(log[1..])
  }

  lemma StoreActionsCons(d: Dispatched, rest: seq<Dispatched>)
    ensures StoreActions([d] + rest) == (if d.Store? then [d.action] else []) + StoreActions(rest)
  {
    assert ([d] + rest)[1..] == rest;
  }

  lemma SubmitLogActions(a: Action, b: Action, c: Action, d: Action)
    ensures StoreActions([Store(a), Store(b), Store(c), Store(d), CloseModal]) == [a, b, c, d]
  {
    StoreActionsCons(CloseModal, []);
    StoreActionsCons(Store(d), [CloseModal]);
    StoreActionsCons(Store(c), [Store(d), CloseModal]);
    StoreActionsCons(Store(b), [Store(c), Store(d), CloseModal]);
    StoreActionsCons(Store(a), [Store(b), Store(c), Store(d), CloseModal]);
    assert [Store(a)] + [Store(b), Store(c), Store(d), CloseModal]
           == [Store(a), Store(b), Store(c), Store(d), CloseModal];
  }

  lemma ReduceFour(s: SliceState, a: Action, b: Action, c: Action, d: Action)
    ensures ReduceAll(s, [a, b, c, d]) == Reduce(Reduce(Reduce(Reduce(s, a), b), c), d)
  {
    var s1 := Reduce(s, a);
    var s2 := Reduce(s1, b);
    var s3 := Reduce(s2, c);
    assert [a, b, c, d][1..] == [b, c, d];
    assert [b, c, d][1..] == [c, d];
    assert [c, d][1..] == [d];
    assert ReduceAll(s3, [d]) == ReduceAll(Reduce(s3, d), []);
    assert ReduceAll(s2, [c, d]) == ReduceAll(s3, [d]);
    assert ReduceAll(s1, [b, c, d]) == ReduceAll(s2, [c, d]);
    assert ReduceAll(s, [a, b, c, d]) == ReduceAll(s1, [b, c, d]);
  }

  /** The argument `onSubmit` passes to `addUserCampaign`: the form values, the picked dates and
      the user's id. It passes neither `currentUserName` nor `category`, so both are undefined. */
  function SubmittedInput(v: FormValues, startDate: Option<CalendarDate>,
                          endDate: Option<CalendarDate>, userId: string): CampaignInput
  {
    CampaignInput(None, v.projectName, v.goal, v.about, v.file, None, startDate, endDate, userId)
  }

  class KickOffForm {
    var showCalendar: bool
    var startDate: Option<CalendarDate>
    var endDate: Option<CalendarDate>
    var uploadState: bool
    var uploadedFileName: Option<string>

    /** The `useState` initial values: calendar hidden, no dates, the upload prompt shown,
        no file name. */
    constructor ()
      ensures !showCalendar && startDate == None && endDate == None
      ensures uploadState && uploadedFileName == None
    {
      showCalendar := false;
      startDate := None;
      endDate := None;
      uploadState := true;
      uploadedFileName := None;
    }

    /** `handleCalendarIconClick`: shows a hidden calendar and hides a shown one. */
    method HandleCalendarIconClick()
      modifies this
      ensures showCalendar == !old(showCalendar)
      ensures startDate == old(startDate) && endDate == old(endDate)
      ensures uploadState == old(uploadState) && uploadedFileName == old(uploadedFileName)
    {
      showCalendar := !showCalendar;
    }

    /** `handleCancel`: hides the calendar. */
    method HandleCancel()
      modifies this
      ensures !showCalendar
      ensures startDate == old(startDate) && endDate == old(endDate)
      ensures uploadState == old(uploadState) && uploadedFileName == old(uploadedFileName)
    {
      showCalendar := false;
    }

    /** `handleDateChange([start, end])`: stores both ends of the picked range. */
    method HandleDateChange(start: Option<CalendarDate>, end: Option<CalendarDate>)
      modifies this
      ensures startDate == start && endDate == end
      ensures showCalendar == old(showCalendar)
      ensures uploadState == old(uploadState) && uploadedFileName == old(uploadedFileName)
    {
      startDate := start;
      endDate := end;
    }

    /** `handleFileChange` as written: it reads `files[0].name` before it checks that a file
        was chosen, so an empty list throws a `TypeError` and changes nothing, and the branch
        that shows the upload prompt again is never reached. */
    method HandleFileChangeAsWritten(files: seq<FileData>) returns (threw: bool)
      modifies this
      ensures threw <==> |files| == 0
      ensures threw ==> uploadState == old(uploadState) && uploadedFileName == old(uploadedFileName)
      ensures !threw ==> !uploadState && uploadedFileName == Some(files[0].name)
      ensures uploadState ==> old(uploadState)
      ensures showCalendar == old(showCalendar) && startDate == old(startDate) && endDate == old(endDate)
    {
      if |files| == 0 {
        return true;
      }
      uploadedFileName := Some(files[0].name);
      threw := false;
      if |files| > 0 {
        uploadState := false;
      } else {
        // the list was indexed above, so this branch is never taken
        assert false;
      }
    }

    /** `handleFileChange` with the check first: the upload prompt is shown exactly when no
        file is chosen, and a chosen file's name is kept. */
    method HandleFileChange(files: seq<FileData>)
      modifies this
      ensures uploadState <==> |files| == 0
      ensures |files| > 0 ==> uploadedFileName == Some(files[0].name)
      ensures |files| == 0 ==> uploadedFileName == old(uploadedFileName)
      ensures showCalendar == old(showCalendar) && startDate == old(startDate) && endDate == old(endDate)
    {
      if |files| > 0 {
        uploadedFileName := Some(files[0].name);
        uploadState := false;
      } else {
        uploadState := true;
      }
    }

    /** `onSubmit`. Without a signed-in user, reading `user.uid` throws before anything is
        dispatched. Otherwise it dispatches, each after the previous one has settled,
        `addUserCampaign`, `getAllUserCampaigns(userId)` and `closeModal`. A rejected
        `addUserCampaign` does not stop the sequence, and the refresh always fulfils, so the
        store ends with status succeeded. When the campaign is written and the refresh reads,
        the user's campaigns in the store are the earlier ones followed by the new one. */
    method OnSubmit(user: Option<string>, values: FormValues,
                    today: CalendarDate, nextMonth: CalendarDate,
                    store: CampaignStore, remote: RemoteDb,
                    newId: string, url: string, failing: set<RemoteCall>)
      returns (log: seq<Dispatched>)
      requires Lookup(remote.docs, newId) == None
      modifies store, remote
      ensures store.Snapshot() == ReduceAll(old(store.Snapshot()), StoreActions(log))
      ensures user == None ==>
                && log == []
                && remote.docs == old(remote.docs) && remote.files == old(remote.files)
      ensures user != None ==>
                var written := |values.file| > 0 && UploadBytes !in failing
                               && GetDownloadUrl !in failing && AddDoc !in failing;
                var created := NewCampaign(None, values.projectName, values.goal, values.about,
                                           None, startDate, endDate, user.value, url,
                                           FormatDate, today, nextMonth);
                && log == [Store(Pending(AddUserCampaign)),
                           Store(if |values.file| == 0
                                 then Rejected(AddUserCampaign, Some(ReadNameOfUndefined))
                                 else if written then Fulfilled(AddUserCampaign, DocRef(newId))
                                 else Fulfilled(AddUserCampaign, Undefined)),
                           Store(Pending(GetAllUserCampaigns)),
                           Store(Fulfilled(GetAllUserCampaigns,
                                           if GetDocs in failing then Undefined
                                           else Entries(OwnedBy(remote.docs, user.value)))),
                           CloseModal]
                && remote.docs == (if written then old(remote.docs) + [Entry(newId, created)]
                                   else old(remote.docs))
                && remote.files == (if |values.file| == 0 || UploadBytes in failing
                                    then old(remote.files)
                                    else old(remote.files)[StorageKey(values.file[0].name, user.value,
                                                                      values.projectName)
                                                           := values.file[0]])
                && store.status == Succeeded && store.error == None
                && (written && GetDocs !in failing ==>
                      store.userCampaigns
                      == Entries(OwnedBy(old(remote.docs), user.value) + [Entry(newId, created)]))
    {
      if user == None {
        log := [];
        assert StoreActions(log) == [];
        return;
      }
      var userId := user.value;
      ghost var s0 := store.Snapshot();
      ghost var docs0 := remote.docs;
      var input := SubmittedInput(values, startDate, endDate, userId);
      var settled := DispatchAddUserCampaign(store, remote, input, FormatDate, today, nextMonth,
                                             newId, url, failing);
      var settled2 := DispatchGetAllUserCampaigns(store, remote, userId, failing);
      log := [Store(Pending(AddUserCampaign)), Store(settled),
              Store(Pending(GetAllUserCampaigns)), Store(settled2), CloseModal];
      SubmitLogActions(Pending(AddUserCampaign), settled, Pending(GetAllUserCampaigns), settled2);
      ReduceFour(s0, Pending(AddUserCampaign), settled, Pending(GetAllUserCampaigns), settled2);
      var created := NewCampaign(None, values.projectName, values.goal, values.about,
                                 None, startDate, endDate, userId, url,
                                 FormatDate, today, nextMonth);
      if remote.docs != docs0 {
        OwnedByAppend(docs0, Entry(newId, created), userId);
      }
      assert Get(store.Snapshot(), UserCampaigns) == settled2.payload;
    }

    /** The form's submit handler: invalid values only show their error messages, with no
        dispatch and no remote call; valid values go to `onSubmit`, whose whole outcome follows.
        A valid form always holds a file, so `addUserCampaign` is never rejected here. */
    method Submit(user: Option<string>, values: FormValues,
                  today: CalendarDate, nextMonth: CalendarDate,
                  store: CampaignStore, remote: RemoteDb,
                  newId: string, url: string, failing: set<RemoteCall>)
      returns (log: seq<Dispatched>)
      requires Lookup(remote.docs, newId) == None
      modifies store, remote
      ensures store.Snapshot() == ReduceAll(old(store.Snapshot()), StoreActions(log))
      ensures !FormValid(values) ==>
                && log == [] && store.Snapshot() == old(store.Snapshot())
                && remote.docs == old(remote.docs) && remote.files == old(remote.files)
      ensures FormValid(values) && user == None ==>
                && log == []
                && remote.docs == old(remote.docs) && remote.files == old(remote.files)
      ensures FormValid(values) && user != None ==>
                var written := UploadBytes !in failing && GetDownloadUrl !in failing
                               && AddDoc !in failing;
                var created := NewCampaign(None, values.projectName, values.goal, values.about,
                                           None, startDate, endDate, user.value, url,
                                           FormatDate, today, nextMonth);
                && log == [Store(Pending(AddUserCampaign)),
                           Store(if written then Fulfilled(AddUserCampaign, DocRef(newId))
                                 else Fulfilled(AddUserCampaign, Undefined)),
                           Store(Pending(GetAllUserCampaigns)),
                           Store(Fulfilled(GetAllUserCampaigns,
                                           if GetDocs in failing then Undefined
                                           else Entries(OwnedBy(remote.docs, user.value)))),
                           CloseModal]
                && remote.docs == (if written then old(remote.docs) + [Entry(newId, created)]
                                   else old(remote.docs))
                && remote.files == (if UploadBytes in failing then old(remote.files)
                                    else old(remote.files)[StorageKey(values.file[0].name, user.value,
                                                                      values.projectName)
                                                           := values.file[0]])
                && store.status == Succeeded && store.error == None
                && (written && GetDocs !in failing ==>
                      store.userCampaigns
                      == Entries(OwnedBy(old(remote.docs), user.value) + [Entry(newId, created)]))
    {
      if !FormValid(values) {
        return [];
      }
      log := OnSubmit(user, values, today, nextMonth, store, remote, newId, url, failing);
    }
  }

  /** Clicking the calendar icon twice leaves the whole form state as it was. */
  method CalendarToggleTwice(form: KickOffForm)
    modifies form
    ensures form.showCalendar == old(form.showCalendar)
    ensures form.startDate == old(form.startDate) && form.endDate == old(form.endDate)
    ensures form.uploadState == old(form.uploadState)
    ensures form.uploadedFileName == old(form.uploadedFileName)
  {
    form.HandleCalendarIconClick();
    form.HandleCalendarIconClick();
  }
}
