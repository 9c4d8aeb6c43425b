/** Campaign documents and the `campaigns` collection of the document database, as the
    thunks of the campaign slice read and write them. */
module CampaignDocs {
  import opened Common

  /** A stored date: the `Date` picked in the calendar, or the text `formatDate` produced. */
  datatype DateField = Picked(date: CalendarDate) | Text(text: string)

  /** A campaign document. `goal` is the text the form accepted; `owner` and `category` are
      absent when the caller passes `undefined`. */
  datatype Campaign = Campaign(
    owner: Option<string>,
    projectName: string,
    goal: string,
    about: string,
    category: Option<string>,
    startDate: DateField,
    endDate: DateField,
    id: string,
    donators: set<string>,
    image: string,
    raised: int)

  /** A document as the queries return it: `{ id: doc.id, data: doc.data() }`. */
  datatype Entry = Entry(id: string, data: Campaign)

  /** The document `addUserCampaign` writes: the owner's id in `id`, nothing raised, no donor,
      and each date either the picked one or `formatDate` of today / next month. */
  function NewCampaign(owner: Option<string>, projectName: string, goal: string, about: string,
                       category: Option<string>, startDate: Option<CalendarDate>,
                       endDate: Option<CalendarDate>, userId: string, image: string,
                       formatDate: CalendarDate -> string,
                       today: CalendarDate, nextMonth: CalendarDate): (c: Campaign)
    ensures c.raised == 0 && c.donators == {} && c.id == userId
    ensures c.owner == owner && c.projectName == projectName && c.goal == goal
    ensures c.about == about && c.category == category && c.image == image
    ensures c.startDate == if startDate.Some? then Picked(startDate.value) else Text(formatDate(today))
    ensures c.endDate == if endDate.Some? then Picked(endDate.value) else Text(formatDate(nextMonth))
  {
    Campaign(
      owner := owner,
      projectName := projectName,
      goal := goal,
      about := about,
      category := category,
      startDate := if startDate != None then Picked(startDate.value) else Text(formatDate(today)),
      endDate := if endDate != None then Picked(endDate.value) else Text(formatDate(nextMonth)),
      id := userId,
      donators := {},
      image := image,
      raised := 0)
  }

  // ------------------------------------------------------------- point lookup

  /** The position of the document with this id, or -1 when there is none. */
  function IndexOf(docs: seq<Entry>, id: string): (i: int)
    ensures -1 <= i < |docs|
    ensures i >= 0 ==> docs[i].id == id && forall k :: 0 <= k < i ==> docs[k].id != id
    ensures i == -1 ==> forall k :: 0 <= k < |docs| ==> docs[k].id != id
    decreases |docs|
  {
    if docs == [] then -1
    else if docs[0].id == id then 0
    else var j := IndexOf(docs[1..], id); if j < 0 then -1 else j + 1
  }

  /** `getDoc(doc(db, "campaigns", id))`: the document's data when it `exists()`. */
  function Lookup(docs: seq<Entry>, id: string): Option<Campaign>
  {
    var i := IndexOf(docs, id);
    if i < 0 then None else Some(docs[i].data)
  }

  /** Two collections that hold documents with the same ids, in the same order. */
  predicate SameIds(a: seq<Entry>, b: seq<Entry>)
  {
    |a| == |b| && forall k :: 0 <= k < |a| ==> a[k].id == b[k].id
  }

  lemma SameIdsSameIndex(a: seq<Entry>, b: seq<Entry>, id: string)
    requires SameIds(a, b)
    ensures IndexOf(a, id) == IndexOf(b, id)
  {
    var i, j := IndexOf(a, id), IndexOf(b, id);
    if i >= 0 && j >= 0 {
      assert !(i < j) && !(j < i);
    }
  }

  // ------------------------------------------------------------- updates

  /** The fields `updateDoc` writes for a donation: `raised: increment(donation)` and
      `donators: arrayUnion(currentUserId)`. */
  function Donated(c: Campaign, donor: string, amount: int): Campaign
  {
    c.(raised := c.raised + amount, donators := c.donators + {donor})
  }

  /** The fields `updateDoc` writes when a campaign is edited. */
  function Edited(c: Campaign, projectName: string, about: string, image: string,
                  category: Option<string>): Campaign
  {
    c.(projectName := projectName, about := about, image := image, category := category)
  }

  /** A donation to the campaign with this id. A missing campaign leaves the collection as it
      was; otherwise that campaign, and only it, has the amount added to `raised` and the donor
      in `donators`, every other field as before. */
  function Donate(docs: seq<Entry>, id: string, donor: string, amount: int): (r: seq<Entry>)
    ensures SameIds(r, docs)
    ensures Lookup(docs, id) == None ==> r == docs
    ensures Lookup(docs, id) != None ==>
              var c := Lookup(docs, id).value;
              && Lookup(r, id) != None
              && var d := Lookup(r, id).value;
              && d.raised == c.raised + amount
              && d.donators == c.donators + {donor}
              && d == c.(raised := d.raised, donators := d.donators)
    ensures forall k :: 0 <= k < |docs| && k != IndexOf(docs, id) ==> r[k] == docs[k]
  {
    var i := IndexOf(docs, id);
    if i < 0 then docs
    else
      var r := docs[i := Entry(id, Donated(docs[i].data, donor, amount))];
      SameIdsSameIndex(r, docs, id);
      r
  }

  /** An edit of the campaign with this id. A missing campaign leaves the collection as it
      was; otherwise only its project name, description, image and category change: goal,
      raised amount, donors, dates, owner and owner id keep their values. */
  function Edit(docs: seq<Entry>, id: string, projectName: string, about: string, image: string,
                category: Option<string>): (r: seq<Entry>)
    ensures SameIds(r, docs)
    ensures Lookup(docs, id) == None ==> r == docs
    ensures Lookup(docs, id) != None ==>
              var c := Lookup(docs, id).value;
              && Lookup(r, id) != None
              && var d := Lookup(r, id).value;
              && d.projectName == projectName && d.about == about
              && d.image == image && d.category == category
              && d.goal == c.goal && d.raised == c.raised && d.donators == c.donators
              && d.startDate == c.startDate && d.endDate == c.endDate
              && d.owner == c.owner && d.id == c.id
    ensures forall k :: 0 <= k < |docs| && k != IndexOf(docs, id) ==> r[k] == docs[k]
  {
    var i := IndexOf(docs, id);
    if i < 0 then docs
    else
      var r := docs[i := Entry(id, Edited(docs[i].data, projectName, about, image, category))];
      SameIdsSameIndex(r, docs, id);
      r
  }

  // ------------------------------------------------------------- queries

  /** `query(campaigns, where("id", "==", userId))`: the campaigns this user owns, in
      collection order. */
  function OwnedBy(docs: seq<Entry>, userId: string): (r: seq<Entry>)
    ensures forall e :: e in r <==> e in docs && e.data.id == userId
    ensures |r| <= |docs|
    decreases |docs|
  {
    if docs == [] then []
    else (if docs[0].data.id == userId then [docs[0]] else []) + OwnedBy(docs[1..], userId)
  }

  /** `query(campaigns, where("donators", "array-contains", userId))`: the campaigns this
      user donated to, in collection order. */
  function DonatedBy(docs: seq<Entry>, userId: string): (r: seq<Entry>)
    ensures forall e :: e in r <==> e in docs && userId in e.data.donators
    ensures |r| <= |docs|
    decreases |docs|
  {
    if docs == [] then []
    else (if userId in docs[0].data.donators then [docs[0]] else []) + DonatedBy(docs[1..], userId)
  }

  /** The owner query returns each owned document as often as the collection holds it, and
      no other document: nothing is repeated or dropped. */
  lemma {:induction false} OwnedByCounts(docs: seq<Entry>, userId: string, e: Entry)
    ensures multiset(OwnedBy(docs, userId))[e]
            == if e.data.id == userId then multiset(docs)[e] else 0
    decreases |docs|
  {
    if docs != [] {
      assert docs == [docs[0]] + docs[1..];
      OwnedByCounts(docs[1..], userId, e);
    }
  }

  /** The donations query returns each matching document as often as the collection holds
      it, and no other document. */
  lemma {:induction false} DonatedByCounts(docs: seq<Entry>, userId: string, e: Entry)
    ensures multiset(DonatedBy(docs, userId))[e]
            == if userId in e.data.donators then multiset(docs)[e] else 0
    decreases |docs|
  {
    if docs != [] {
      assert docs == [docs[0]] + docs[1..];
      DonatedByCounts(docs[1..], userId, e);
    }
  }

  /** A document added at the end of the collection shows up, last, in its owner's query. */
  lemma {:induction false} OwnedByAppend(docs: seq<Entry>, e: Entry, userId: string)
    ensures OwnedBy(docs + [e], userId)
            == OwnedBy(docs, userId) + (if e.data.id == userId then [e] else [])
    decreases |docs|
  {
    if docs != [] {
      assert (docs + [e])[1..] == docs[1..] + [e];
      OwnedByAppend(docs[1..], e, userId);
    }
  }

  /** After a donation to an existing campaign, the donor's donations query holds it. */
  lemma DonorSeesDonation(docs: seq<Entry>, id: string, donor: string, amount: int)
    requires Lookup(docs, id) != None
    ensures var r := Donate(docs, id, donor, amount);
            Entry(id, Lookup(r, id).value) in DonatedBy(r, donor)
  {
    var r := Donate(docs, id, donor, amount);
    var i := IndexOf(r, id);
    assert r[i] == Entry(id, Lookup(r, id).value);
  }

  // ------------------------------------------------------------- donation history

  datatype Gift = Gift(donor: string, amount: int)

  function ApplyGifts(c: Campaign, gifts: seq<Gift>): Campaign
    decreases |gifts|
  {
    if gifts == [] then c else ApplyGifts(Donated(c, gifts[0].donor, gifts[0].amount), gifts[1..])
  }

  function TotalAmount(gifts: seq<Gift>): int
    decreases |gifts|
  {
    if gifts == [] then 0 else gifts[0].amount + TotalAmount(gifts[1..])
  }

  function Donors(gifts: seq<Gift>): set<string>
    decreases |gifts|
  {
    if gifts == [] then {} else {gifts[0].donor} + Donors(gifts[1..])
  }

  /** After a series of donations a campaign has raised its earlier amount plus their total,
      its donors are its earlier donors and every giver, and nothing else about it changed. */
  lemma {:induction false} DonationsAccumulate(c: Campaign, gifts: seq<Gift>)
    ensures ApplyGifts(c, gifts).raised == c.raised + TotalAmount(gifts)
    ensures ApplyGifts(c, gifts).donators == c.donators + Donors(gifts)
    ensures ApplyGifts(c, gifts)
            == c.(raised := ApplyGifts(c, gifts).raised, donators := ApplyGifts(c, gifts).donators)
    decreases |gifts|
  {
    if gifts != [] {
      DonationsAccumulate(Donated(c, gifts[0].donor, gifts[0].amount), gifts[1..]);
    }
  }

  /** With non-negative amounts the raised total never falls. */
  lemma {:induction false} RaisedNeverFalls(c: Campaign, gifts: seq<Gift>)
    requires forall k :: 0 <= k < |gifts| ==> gifts[k].amount >= 0
    ensures ApplyGifts(c, gifts).raised >= c.raised
    ensures c.donators <= ApplyGifts(c, gifts).donators
    decreases |gifts|
  {
    if gifts != [] {
      RaisedNeverFalls(Donated(c, gifts[0].donor, gifts[0].amount), gifts[1..]);
    }
  }
}
