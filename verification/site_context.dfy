/** The site context: the mapping of the settings reply into the settings
    record, and the list updaters its add, update and delete callbacks apply
    to the stacks, jobs, applications and invites it holds. */
module SiteContext {
  import opened JsValues
  import opened Http
  import opened Thunks
  import opened Records

  /** The `socialLinks` member of the settings record; a link may be missing. */
  datatype SocialLinks = SocialLinks(twitter: Value, linkedin: Value, github: Value)

  /** The site settings record. Its text fields are whatever the reply held
      when that was truthy, and '' otherwise. */
  datatype Settings = Settings(
    siteName: Value,
    logoUrl: Value,
    heroTitle: Value,
    heroSubtitle: Value,
    heroImage: Value,
    aboutTitle: Value,
    aboutContent: Value,
    footerText: Value,
    contactEmail: Value,
    socialLinks: SocialLinks)

  /** The properties of the settings reply's `data` that the mapping reads
      (a property the reply lacks is `undefined`), and its nested
      `socialLinks` object when it has one. */
  datatype SettingsData = SettingsData(
    siteName: Value,
    logoUrl: Value,
    heroTitle: Value,
    heroSubtitle: Value,
    heroImage: Value,
    aboutTitle: Value,
    aboutContent: Value,
    footerText: Value,
    contactEmail: Value,
    socialTwitter: Value,
    socialLinkedin: Value,
    socialGithub: Value,
    socialLinks: Option<Object>)

  /** `data.key || ''` */
  function TextField(v: Value): (r: Value)
    ensures Truthy(v) ==> r == v
    ensures !Truthy(v) ==> r == Str("")
  {
    Or(v, Str(""))
  }

  /** `data.flat || data.socialLinks?.nested` */
  function SocialLink(flat: Value, nested: Option<Object>, key: string): (r: Value)
    ensures Truthy(flat) ==> r == flat
    ensures !Truthy(flat) && nested.Some? ==> r == Get(nested.value, key)
    ensures !Truthy(flat) && nested.None? ==> r == Undefined
  {
    Or(flat, if nested.Some? then Get(nested.value, key) else Undefined)
  }

  /** `mapSettings`: text fields default to '', and each social link prefers
      the flat key over the nested object. */
  function MapSettings(d: SettingsData): (s: Settings)
    ensures s.siteName == TextField(d.siteName) && s.logoUrl == TextField(d.logoUrl)
    ensures s.heroTitle == TextField(d.heroTitle) && s.heroSubtitle == TextField(d.heroSubtitle)
    ensures s.heroImage == TextField(d.heroImage) && s.aboutTitle == TextField(d.aboutTitle)
    ensures s.aboutContent == TextField(d.aboutContent) && s.footerText == TextField(d.footerText)
    ensures s.contactEmail == TextField(d.contactEmail)
    ensures s.socialLinks == SocialLinks(SocialLink(d.socialTwitter, d.socialLinks, "twitter"),
                                         SocialLink(d.socialLinkedin, d.socialLinks, "linkedin"),
                                         SocialLink(d.socialGithub, d.socialLinks, "github"))
  {
    Settings(
      TextField(d.siteName), TextField(d.logoUrl), TextField(d.heroTitle),
      TextField(d.heroSubtitle), TextField(d.heroImage), TextField(d.aboutTitle),
      TextField(d.aboutContent), TextField(d.footerText), TextField(d.contactEmail),
      SocialLinks(SocialLink(d.socialTwitter, d.socialLinks, "twitter"),
                  SocialLink(d.socialLinkedin, d.socialLinks, "linkedin"),
                  SocialLink(d.socialGithub, d.socialLinks, "github")))
  }

  /** A settings record sent back as reply data, with the links both flat
      and nested. */
  function AsData(s: Settings): SettingsData {
    SettingsData(
      s.siteName, s.logoUrl, s.heroTitle, s.heroSubtitle, s.heroImage,
      s.aboutTitle, s.aboutContent, s.footerText, s.contactEmail,
      s.socialLinks.twitter, s.socialLinks.linkedin, s.socialLinks.github,
      Some(map["twitter" := s.socialLinks.twitter, "linkedin" := s.socialLinks.linkedin,
               "github" := s.socialLinks.github]))
  }

  /** Every text field of a mapped record is a non-empty string or ''. */
  predicate TextFieldsSettled(s: Settings) {
    forall v :: v in [s.siteName, s.logoUrl, s.heroTitle, s.heroSubtitle, s.heroImage,
                      s.aboutTitle, s.aboutContent, s.footerText, s.contactEmail] ==>
                  Truthy(v) || v == Str("")
  }

  /** Mapped text fields are never nullish: each is truthy or ''. */
  lemma MappedTextSettled(d: SettingsData)
    ensures TextFieldsSettled(MapSettings(d))
  {
  }

  /** Mapping is idempotent: a mapped record sent back and mapped again is
      unchanged. */
  lemma MapSettingsIdempotent(d: SettingsData)
    ensures MapSettings(AsData(MapSettings(d))) == MapSettings(d)
  {
  }

  /** An empty reply maps to '' everywhere and no social links; a flat link
      beats a nested one. */
  lemma MapSettingsDefaultsAndPrecedence(twitter: string, nested: string)
    requires twitter != ""
    ensures var u := Undefined;
            var s := MapSettings(SettingsData(u, u, u, u, u, u, u, u, u, u, u, u, None));
            s.siteName == Str("") && s.contactEmail == Str("") &&
            s.socialLinks == SocialLinks(Undefined, Undefined, Undefined)
    ensures var u := Undefined;
            MapSettings(SettingsData(u, u, u, u, u, u, u, u, u, Str(twitter), u, u,
                                     Some(map["twitter" := Str(nested)]))).socialLinks.twitter == Str(twitter)
  {
  }

  /** What an updater callback leaves behind: the list as the setter wrote it
      (or as it was), and the error it rethrew, if any. */
  datatype Outcome = Outcome(list: seq<Object>, rethrown: Option<ApiError>)

  /** `addStack`, `addJob`, `addApplication`: append the reply's record when
      the reply reports success. */
  function Add(list: seq<Object>, reply: Reply<Envelope<Object>>): (o: Outcome)
    ensures reply.Threw? ==> o == Outcome(list, Some(reply.error))
    ensures reply.Returned? ==> o.rethrown.None?
    ensures reply.Returned? && reply.body.success ==> o.list == list + [reply.body.data]
    ensures o.list != list ==> reply.Returned? && reply.body.success
  {
    match reply
    case Returned(body) => Outcome(if body.success then list + [body.data] else list, None)
    case Threw(e) => Outcome(list, Some(e))
  }

  /** `updateStack`, `updateJob`: merge the reply's record into every element
      with the id when the reply reports success. */
  function Update(list: seq<Object>, id: Value, reply: Reply<Envelope<Object>>): (o: Outcome)
    ensures reply.Threw? ==> o == Outcome(list, Some(reply.error))
    ensures reply.Returned? ==> o.rethrown.None?
    ensures |o.list| == |list|
    ensures forall i :: 0 <= i < |list| && Id(list[i]) != id ==> o.list[i] == list[i]
    ensures reply.Returned? && reply.body.success ==>
              forall i :: 0 <= i < |list| && Id(list[i]) == id ==> o.list[i] == Merge(list[i], reply.body.data)
    ensures o.list != list ==> reply.Returned? && reply.body.success
  {
    match reply
    case Returned(body) => Outcome(if body.success then MergeById(list, id, body.data) else list, None)
    case Threw(e) => Outcome(list, Some(e))
  }

  /** `deleteStack`, `deleteJob`: drop every element with the id when the
      reply reports success. */
  function Delete(list: seq<Object>, id: Value, reply: Reply<Envelope<Object>>): (o: Outcome)
    ensures reply.Threw? ==> o == Outcome(list, Some(reply.error))
    ensures reply.Returned? ==> o.rethrown.None?
    ensures reply.Returned? && reply.body.success ==> o.list == RemoveById(list, id)
    ensures o.list != list ==> reply.Returned? && reply.body.success
    ensures forall x :: x in o.list ==> x in list
  {
    match reply
    case Returned(body) => Outcome(if body.success then RemoveById(list, id) else list, None)
    case Threw(e) => Outcome(list, Some(e))
  }

  /** `updateApplication`: only a truthy `data.status` leads to the status
      call, whose successful reply is merged like any update; the calls made
      are recorded. */
  datatype StatusUpdate = StatusUpdate(outcome: Outcome, calls: seq<Value>)

  function UpdateApplication(list: seq<Object>, id: Value, data: Object,
                             updateStatus: Value -> Reply<Envelope<Object>>): (u: StatusUpdate)
    ensures !Truthy(Get(data, "status")) ==> u == StatusUpdate(Outcome(list, None), [])
    ensures Truthy(Get(data, "status")) ==>
              u == StatusUpdate(Update(list, id, updateStatus(Get(data, "status"))), [Get(data, "status")])
  {
    var status := Get(data, "status");
    if Truthy(status) then StatusUpdate(Update(list, id, updateStatus(status)), [status])
    else StatusUpdate(Outcome(list, None), [])
  }

  /** `deleteInvite`: once the cancel call returns, whatever it answered,
      every invite with the id is dropped. */
  function DeleteInvite(list: seq<Object>, id: Value, cancel: Reply<Envelope<Object>>): (o: Outcome)
    ensures cancel.Threw? ==> o == Outcome(list, Some(cancel.error))
    ensures cancel.Returned? ==> o == Outcome(RemoveById(list, id), None)
  {
    match cancel
    case Returned(_) => Outcome(RemoveById(list, id), None)
    case Threw(e) => Outcome(list, Some(e))
  }

  /** A reply that reports failure leaves every list as it was and is not
      rethrown; `deleteInvite` is the exception that does not look. */
  lemma UnsuccessfulRepliesChangeNothing(list: seq<Object>, id: Value, body: Envelope<Object>)
    requires !body.success
    ensures Add(list, Returned(body)) == Outcome(list, None)
    ensures Update(list, id, Returned(body)) == Outcome(list, None)
    ensures Delete(list, id, Returned(body)) == Outcome(list, None)
    ensures (exists i :: 0 <= i < |list| && Id(list[i]) == id) ==>
              DeleteInvite(list, id, Returned(body)).list != list
  {
    if exists i :: 0 <= i < |list| && Id(list[i]) == id {
      var i :| 0 <= i < |list| && Id(list[i]) == id;
      assert list[i] !in DeleteInvite(list, id, Returned(body)).list;
    }
  }

  /** Adding a record and then deleting its id, both successfully, leaves
      exactly the records of other ids, in order; when none of the list
      shared the id, the list is back where it was. */
  lemma AddThenDelete(list: seq<Object>, body: Envelope<Object>, reply: Reply<Envelope<Object>>)
    requires body.success && reply.Returned? && reply.body.success
    ensures var added := Add(list, Returned(body)).list;
            Delete(added, Id(body.data), reply).list == RemoveById(list, Id(body.data))
    ensures (forall i :: 0 <= i < |list| ==> Id(list[i]) != Id(body.data)) ==>
              Delete(Add(list, Returned(body)).list, Id(body.data), reply).list == list
  {
    var id := Id(body.data);
    RemoveKeepsOrder(list, [body.data], id);
    assert |RemoveById([body.data], id)| == 0 by {
      assert forall o :: o !in RemoveById([body.data], id);
    }
    if forall i :: 0 <= i < |list| ==> Id(list[i]) != id {
      RemoveAbsentId(list, id);
    }
  }

  /** Deleting after a successful update of the same id removes what
      deleting straight away would, as long as the reply keeps the id. */
  lemma DeleteAfterUpdate(list: seq<Object>, id: Value, body: Envelope<Object>, reply: Reply<Envelope<Object>>)
    requires body.success && reply.Returned? && reply.body.success
    requires "id" in body.data ==> body.data["id"] == id
    ensures Delete(Update(list, id, Returned(body)).list, id, reply).list == RemoveById(list, id)
  {
    RemoveAfterMerge(list, id, body.data);
  }
}
