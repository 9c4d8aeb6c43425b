/** The bodies of the seven thunks, run against an in-memory stand-in for the document
    database and the file storage. Each remote call may fail; which ones fail is a parameter. */
module CampaignThunks {
  import opened Common
  import opened CampaignDocs
  import opened CampaignSlice

  /** The remote calls the thunks make. */
  datatype RemoteCall = UploadBytes | GetDownloadUrl | AddDoc | GetDoc | UpdateDoc | GetDocs

  /** The message of the `TypeError` thrown by `file[0].name` on an empty file list, as V8
      (Chrome, Node) words it; other JavaScript engines word it differently. */
  const ReadNameOfUndefined: string := "Cannot read properties of undefined (reading 'name')"

  /** The storage key `folder/${file.name} ${userId} ${projectName}`. */
  function StorageKey(fileName: string, userId: string, projectName: string): string
  {
    "folder/" + fileName + " " + userId + " " + projectName
  }

  /** The argument of `addUserCampaign`. */
  datatype CampaignInput = CampaignInput(
    currentUserName: Option<string>,
    projectName: string,
    goal: string,
    about: string,
    file: seq<FileData>,
    category: Option<string>,
    startDate: Option<CalendarDate>,
    endDate: Option<CalendarDate>,
    userId: string)

  /** The `campaigns` collection and the file storage. */
  class RemoteDb {
    var docs: seq<Entry>
    var files: map<string, FileData>

    constructor (docs: seq<Entry>, files: map<string, FileData>)
      ensures this.docs == docs && this.files == files
    {
      this.docs := docs;
      this.files := files;
    }

    /** `getAllCampaigns`: every campaign document, or `undefined` when the read fails. */
    method GetAllCampaigns(failing: set<RemoteCall>) returns (o: Outcome)
      ensures o == Resolved(if GetDocs in failing then Undefined else Entries(docs))
    {
      if GetDocs in failing {
        return Resolved(Undefined);
      }
      o := Resolved(Entries(docs));
    }

    /** `addUserCampaign`. An empty file list throws before the `try` (the thunk is rejected).
        Otherwise the file is uploaded under its storage key, its URL fetched, and one new
        document added under the id the database assigns, which resolves the thunk with the
        document reference. A failing call stops the sequence there and resolves the thunk
        with `undefined`; a file uploaded before the failure stays in storage. */
    method AddUserCampaign(input: CampaignInput, formatDate: CalendarDate -> string,
                           today: CalendarDate, nextMonth: CalendarDate,
                           newId: string, url: string, failing: set<RemoteCall>)
      returns (o: Outcome)
      requires Lookup(docs, newId) == None
      modifies this
      ensures |input.file| == 0 ==>
                o == Thrown(Some(ReadNameOfUndefined)) && docs == old(docs) && files == old(files)
      ensures |input.file| > 0 ==>
                var key := StorageKey(input.file[0].name, input.userId, input.projectName);
                && files == (if UploadBytes in failing then old(files) else old(files)[key := input.file[0]])
                && if UploadBytes !in failing && GetDownloadUrl !in failing && AddDoc !in failing then
                     && o == Resolved(DocRef(newId))
                     && docs == old(docs) + [Entry(newId, NewCampaign(
                          input.currentUserName, input.projectName, input.goal, input.about,
                          input.category, input.startDate, input.endDate, input.userId, url,
                          formatDate, today, nextMonth))]
                   else
                     o == Resolved(Undefined) && docs == old(docs)
    {
      if |input.file| == 0 {
        return Thrown(Some(ReadNameOfUndefined));
      }
      var key := StorageKey(input.file[0].name, input.userId, input.projectName);
      if UploadBytes in failing {
        return Resolved(Undefined);
      }
      files := files[key := input.file[0]];
      if GetDownloadUrl in failing {
        return Resolved(Undefined);
      }
      var image := url;
      if AddDoc in failing {
        return Resolved(Undefined);
      }
      var campaign := NewCampaign(input.currentUserName, input.projectName, input.goal,
                                  input.about, input.category, input.startDate, input.endDate,
                                  input.userId, image, formatDate, today, nextMonth);
      docs := docs + [Entry(newId, campaign)];
      o := Resolved(DocRef(newId));
    }

    /** `addUserDonation`: when the campaign exists, one update adds the amount and the donor;
        a missing campaign or a failing call writes nothing. `updateDoc` resolves to nothing,
        so the thunk always resolves with `undefined`. */
    method AddUserDonation(currentUserId: string, campaignId: string, donation: int,
                           failing: set<RemoteCall>)
      returns (o: Outcome)
      modifies this
      ensures o == Resolved(Undefined) && files == old(files)
      ensures docs == if GetDoc !in failing && UpdateDoc !in failing
                      then Donate(old(docs), campaignId, currentUserId, donation)
                      else old(docs)
    {
      o := Resolved(Undefined);
      if GetDoc in failing {
        return;
      }
      var snapshot := Lookup(docs, campaignId);
      if snapshot != None {
        if UpdateDoc in failing {
          return;
        }
        docs := Donate(docs, campaignId, currentUserId, donation);
      }
    }

    /** `getCurrentCampaign`: the document's data, `undefined` when it is missing or the read
        fails. */
    method GetCurrentCampaign(campaignId: string, failing: set<RemoteCall>) returns (o: Outcome)
      ensures GetDoc !in failing && Lookup(docs, campaignId) != None ==>
                o == Resolved(Doc(Lookup(docs, campaignId).value))
      ensures GetDoc in failing || Lookup(docs, campaignId) == None ==> o == Resolved(Undefined)
    {
      if GetDoc in failing {
        return Resolved(Undefined);
      }
      var snapshot := Lookup(docs, campaignId);
      o := Resolved(if snapshot.Some? then Doc(snapshot.value) else Undefined);
    }

    /** `updateCurrentCampaign`. An empty file list throws before the `try`. Otherwise the
        file is always uploaded again, then, when the campaign exists, its URL is fetched and
        the four edited fields written. The thunk resolves with `undefined` in every other case. */
    method UpdateCurrentCampaign(campaignId: string, projectName: string, about: string,
                                 file: seq<FileData>, category: Option<string>, userId: string,
                                 url: string, failing: set<RemoteCall>)
      returns (o: Outcome)
      modifies this
      ensures |file| == 0 ==>
                o == Thrown(Some(ReadNameOfUndefined)) && docs == old(docs) && files == old(files)
      ensures |file| > 0 ==>
                && o == Resolved(Undefined)
                && files == (if UploadBytes in failing then old(files)
                             else old(files)[StorageKey(file[0].name, userId, projectName) := file[0]])
                && docs == if UploadBytes !in failing && GetDoc !in failing
                              && GetDownloadUrl !in failing && UpdateDoc !in failing
                           then Edit(old(docs), campaignId, projectName, about, url, category)
                           else old(docs)
    {
      if |file| == 0 {
        return Thrown(Some(ReadNameOfUndefined));
      }
      var key := StorageKey(file[0].name, userId, projectName);
      o := Resolved(Undefined);
      if UploadBytes in failing {
        return;
      }
      files := files[key := file[0]];
      if GetDoc in failing {
        return;
      }
      var snapshot := Lookup(docs, campaignId);
      if snapshot != None {
        if GetDownloadUrl in failing || UpdateDoc in failing {
          return;
        }
        docs := Edit(docs, campaignId, projectName, about, url, category);
      }
    }

    /** `getAllUserCampaigns`: the campaigns whose `id` is the user's, or `undefined`. */
    method GetAllUserCampaigns(userId: string, failing: set<RemoteCall>) returns (o: Outcome)
      ensures o == Resolved(if GetDocs in failing then Undefined else Entries(OwnedBy(docs, userId)))
    {
      if GetDocs in failing {
        return Resolved(Undefined);
      }
      o := Resolved(Entries(OwnedBy(docs, userId)));
    }

    /** `getAllUserDonations`: the campaigns whose donors include the user, or `undefined`. */
    method GetAllUserDonations(userId: string, failing: set<RemoteCall>) returns (o: Outcome)
      ensures o == Resolved(if GetDocs in failing then Undefined else Entries(DonatedBy(docs, userId)))
    {
      if GetDocs in failing {
        return Resolved(Undefined);
      }
      o := Resolved(Entries(DonatedBy(docs, userId)));
    }
  }

  /** `dispatch(addUserCampaign(input))`: the pending action, the thunk's body, then the action
      that settles it. An empty file list rejects the thunk with the `TypeError` message; a
      failing upload, URL or `addDoc` fulfils it with `undefined` and adds no document; otherwise
      it is fulfilled with the new document's reference and the document is appended. */
  method DispatchAddUserCampaign(store: CampaignStore, remote: RemoteDb, input: CampaignInput,
                                 formatDate: CalendarDate -> string,
                                 today: CalendarDate, nextMonth: CalendarDate,
                                 newId: string, url: string, failing: set<RemoteCall>)
    returns (settled: Action)
    requires Lookup(remote.docs, newId) == None
    modifies store, remote
    ensures store.Snapshot() == Reduce(Reduce(old(store.Snapshot()), Pending(AddUserCampaign)), settled)
    ensures var written := |input.file| > 0 && UploadBytes !in failing
                           && GetDownloadUrl !in failing && AddDoc !in failing;
            && settled == (if |input.file| == 0 then Rejected(AddUserCampaign, Some(ReadNameOfUndefined))
                           else if written then Fulfilled(AddUserCampaign, DocRef(newId))
                           else Fulfilled(AddUserCampaign, Undefined))
            && remote.docs == (if written then old(remote.docs) + [Entry(newId, NewCampaign(
                                  input.currentUserName, input.projectName, input.goal, input.about,
                                  input.category, input.startDate, input.endDate, input.userId, url,
                                  formatDate, today, nextMonth))]
                               else old(remote.docs))
    ensures remote.files == if |input.file| == 0 || UploadBytes in failing then old(remote.files)
                            else old(remote.files)[StorageKey(input.file[0].name, input.userId,
                                                              input.projectName) := input.file[0]]
  {
    store.Dispatch(Pending(AddUserCampaign));
    var o := remote.AddUserCampaign(input, formatDate, today, nextMonth, newId, url, failing);
    settled := Settle(AddUserCampaign, o);
    store.Dispatch(settled);
  }

  /** `dispatch(getAllUserCampaigns(userId))`: the pending action, the query, then the action
      that settles it; the database is only read. */
  method DispatchGetAllUserCampaigns(store: CampaignStore, remote: RemoteDb, userId: string,
                                     failing: set<RemoteCall>)
    returns (settled: Action)
    modifies store
    ensures settled == Fulfilled(GetAllUserCampaigns,
                                 if GetDocs in failing then Undefined
                                 else Entries(OwnedBy(remote.docs, userId)))
    ensures store.Snapshot() == Reduce(Reduce(old(store.Snapshot()), Pending(GetAllUserCampaigns)), settled)
  {
    store.Dispatch(Pending(GetAllUserCampaigns));
    var o := remote.GetAllUserCampaigns(userId, failing);
    settled := Settle(GetAllUserCampaigns, o);
    store.Dispatch(settled);
  }
}
