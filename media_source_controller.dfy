/**
 MediaSourceController: the HTTP action that attaches an uploaded body to
 a media field inside a database transaction, and its access check.
 */
module Controller {
  import opened Php
  import opened Http
  import opened Drupal
  import opened MediaSource

  /** The parts of a request the action reads; header names are kept lower-case, as Symfony stores them. */
  datatype Request = Request(headers: map<string, string>, body: Body)

  const ContentLocation := "content-location"
  const ContentType := "content-type"

  /** `$request->headers->get($name, "")`. */
  function Header(request: Request, name: string): string {
    if name in request.headers then request.headers[name] else ""
  }

  /** What `startTransaction()` lets a rollback restore: the entity rows. */
  datatype Snapshot = Snapshot(files: map<nat, File>, media: map<nat, Fields>)

  /** A snapshot whose File rows still fit the id counter of `w`. */
  predicate Fits(s: Snapshot, w: World) {
    Consistent(w.(files := s.files))
  }

  /**
   `$transaction->rollBack()`: the entity rows go back to the snapshot;
   the file store, the derivative cache and the id counter do not.
   */
  function Restore(w: World, s: Snapshot): (r: World)
    requires Fits(s, w)
    ensures Consistent(r)
    ensures r.files == s.files && r.media == s.media
    ensures r.blobs == w.blobs && r.derivatives == w.derivatives && r.nextFileId == w.nextFileId
    ensures r.journal == w.journal + [RolledBack]
  {
    w.(files := s.files, media := s.media, journal := w.journal + [RolledBack])
  }

  /** The transaction ends without a rollback and its writes stay. */
  function Finish(w: World): World {
    w.(journal := w.journal + [Committed])
  }

  /**
   What leaves the catch blocks: an HttpException unchanged, any other
   exception as a 500 carrying its message.
   */
  function Rethrown(e: Thrown): (r: Thrown)
    requires e.IsException()
    ensures r.HttpException?
    ensures e.HttpException? ==> r == e
    ensures e.OtherException? ==> r.status == 500 && r.message == e.message
  {
    if e.HttpException? then e else ServerError(e.message)
  }

  /** The body the action answers with; Symfony's Response defaults to status 200. */
  const Complete := Response(200, "<h1>Complete</h1>")

  datatype Attach = Attach(reply: Reply, world: World, fields: Fields)

  /**
   The end of the `try`: success answers `Complete` and commits; an
   exception rolls back to the snapshot taken before `putToMedia` and is
   rethrown as `Rethrown` says; a PHP error passes through unrolled.
   */
  function Conclude(w: World, p: Ingest): (r: Attach)
    requires Consistent(w) && Consistent(p.world) && w.nextFileId <= p.world.nextFileId
    requires p.status.Threw? && p.status.error.PhpError? ==> p.world.files == w.files && p.world.media == w.media
    ensures Consistent(r.world)
    ensures r.fields == p.fields && r.world.blobs == p.world.blobs
    ensures p.status.Done? <==> r.reply == Responded(Complete)
    ensures p.status.Done? ==> r.world == Finish(p.world)
    ensures p.status.Threw? && p.status.error.IsException() ==>
      r.reply == Raised(Rethrown(p.status.error)) && r.world == Restore(p.world, Snapshot(w.files, w.media))
    ensures p.status.Threw? && !p.status.error.IsException() ==> r.reply == Raised(p.status.error) && r.world == Finish(p.world)
    ensures r.reply.Raised? ==> r.world.files == w.files && r.world.media == w.media
  {
    match p.status
    case Done => Attach(Responded(Complete), Finish(p.world), p.fields)
    case Threw(e) =>
      if e.IsException() then Attach(Raised(Rethrown(e)), Restore(p.world, Snapshot(w.files, w.media)), p.fields)
      else Attach(Raised(e), Finish(p.world), p.fields)
  }

  /**
   `attachToMedia`: both headers are checked, Content-Location first,
   before a transaction starts; then `putToMedia` runs with the body, the
   Content-Type and the Content-Location, in that order, and `Conclude`
   ends the transaction. However the action fails, no File or Media row
   has changed.
   */
  function AttachToMediaOutcome(h: Host, lib: Library, w: World, account: nat, mediaId: nat, bundle: string,
                                fields: Fields, destination: string, request: Request): (r: Attach)
    requires Consistent(w)
    ensures Consistent(r.world)
    ensures Empty(Header(request, ContentLocation)) ==>
      r == Attach(Raised(BadRequest("Missing Content-Location header")), w, fields)
    ensures !Empty(Header(request, ContentLocation)) && Empty(Header(request, ContentType)) ==>
      r == Attach(Raised(BadRequest("Missing Content-Type header")), w, fields)
    ensures !Empty(Header(request, ContentLocation)) && !Empty(Header(request, ContentType)) ==>
      var begun := w.(journal := w.journal + [Began]);
      r == Conclude(w, PutToMediaOutcome(h, lib, begun, account, mediaId, bundle, fields, destination, request.body,
                                         Header(request, ContentType), Header(request, ContentLocation)))
    ensures r.reply.Raised? ==> r.world.files == w.files && r.world.media == w.media
  {
    var location := Header(request, ContentLocation);
    if Empty(location) then Attach(Raised(BadRequest("Missing Content-Location header")), w, fields)
    else
      var contentType := Header(request, ContentType);
      if Empty(contentType) then Attach(Raised(BadRequest("Missing Content-Type header")), w, fields)
      else
        var begun := w.(journal := w.journal + [Began]);
        Conclude(w, PutToMediaOutcome(h, lib, begun, account, mediaId, bundle, fields, destination, request.body, contentType, location))
  }

  /**
   A request answered `Complete` had both headers, and ran inside one
   transaction: begun, the bytes written, the derivatives flushed, the new
   File and the media saved, committed.
   */
  lemma AttachCompletes(h: Host, lib: Library, w: World, account: nat, mediaId: nat, bundle: string,
                        fields: Fields, destination: string, request: Request)
    requires Consistent(w)
    ensures var r := AttachToMediaOutcome(h, lib, w, account, mediaId, bundle, fields, destination, request);
      var location := Header(request, ContentLocation);
      r.reply == Responded(Complete) ==>
        && !Empty(location) && !Empty(Header(request, ContentType))
        && request.body.Copied? && |request.body.bytes| > 0
        && r.world.blobs == w.blobs[location := request.body.bytes]
        && r.world.journal == w.journal + [Began, Opened(location), Flushed(location), FileSaved(w.nextFileId), MediaSaved(mediaId), Committed]
  {
    var location := Header(request, ContentLocation);
    var contentType := Header(request, ContentType);
    if !Empty(location) && !Empty(contentType) {
      var begun := w.(journal := w.journal + [Began]);
      var p := PutToMediaOutcome(h, lib, begun, account, mediaId, bundle, fields, destination, request.body, contentType, location);
      if p.status.Done? {
        assert begun.journal + [Opened(location), Flushed(location), FileSaved(w.nextFileId), MediaSaved(mediaId)] + [Committed]
            == w.journal + [Began, Opened(location), Flushed(location), FileSaved(w.nextFileId), MediaSaved(mediaId), Committed];
      }
    }
  }

  /**
   A destination field without field configuration is a PHP error inside the
   try block: the catch clauses do not see it, nothing is rolled back and the
   transaction commits.
   */
  lemma NoFieldConfigCommits(h: Host, lib: Library, w: World, account: nat, mediaId: nat, bundle: string,
                             fields: Fields, destination: string, request: Request)
    requires Consistent(w)
    requires !Empty(Header(request, ContentLocation)) && !Empty(Header(request, ContentType))
    requires destination in fields && (bundle, destination) !in h.fileExtensions
    ensures var r := AttachToMediaOutcome(h, lib, w, account, mediaId, bundle, fields, destination, request);
      && r.reply == Raised(PhpError(NoFieldConfig))
      && r.world == w.(journal := w.journal + [Began, Committed])
      && r.fields == fields
  {
  }

  /**
   The rollback covers rows only: when saving the media fails, the File row
   is rolled back but the bytes already written stay at the location.
   */
  lemma RollbackKeepsBytes(h: Host, lib: Library, w: World, account: nat, mediaId: nat, bundle: string,
                           fields: Fields, destination: string, request: Request)
    requires Consistent(w)
    requires var location := Header(request, ContentLocation);
      && !Empty(location) && !Empty(Header(request, ContentType))
      && destination in fields && (bundle, destination) in h.fileExtensions
      && lib.extensionAllowed(lib.basename(location), h.fileExtensions[(bundle, destination)])
      && lib.prepareDirectory(lib.dirname(location))
      && location !in h.unwritable && request.body.Copied? && |request.body.bytes| > 0
      && h.fileSaveFault.None? && h.mediaSaveFault.Some?
    ensures var r := AttachToMediaOutcome(h, lib, w, account, mediaId, bundle, fields, destination, request);
      && r.reply == Raised(ServerError(h.mediaSaveFault.value))
      && r.world.files == w.files && r.world.media == w.media
      && r.world.blobs == w.blobs[Header(request, ContentLocation) := request.body.bytes]
  {
    var location := Header(request, ContentLocation);
    var contentType := Header(request, ContentType);
    var begun := w.(journal := w.journal + [Began]);
    var file := NewFile(lib, account, contentType, location);
    var u := UpdateFileOutcome(h, begun, file, request.body, contentType);
    assert u.world.blobs == w.blobs[location := request.body.bytes];
  }

  /** An access result as Drupal's AccessResult has them. */
  datatype Access = Allowed | Neutral | Forbidden

  /**
   `attachToMediaAccess`: `AccessResult::allowedIf` on whether the routed
   media grants `update` to the account; it never forbids outright.
   */
  function AttachToMediaAccess(mayUpdate: (nat, nat) -> bool, mediaId: nat, account: nat): (r: Access)
    ensures r == Allowed <==> mayUpdate(mediaId, account)
    ensures r != Forbidden
  {
    if mayUpdate(mediaId, account) then Allowed else Neutral
  }

  /** A database transaction: started on a site, rolled back or left to commit. */
  class Transaction {
    const site: Site
    const snapshot: Snapshot

    /** `$database->startTransaction()`. */
    constructor Start(site: Site)
      requires site.Valid()
      modifies site
      ensures this.site == site && snapshot == Snapshot(old(site.files), old(site.media))
      ensures site.State() == old(site.State()).(journal := old(site.journal) + [Began])
      ensures site.Valid()
    {
      this.site := site;
      snapshot := Snapshot(site.files, site.media);
      site.journal := site.journal + [Began];
    }

    /** `$transaction->rollBack()`. */
    method RollBack()
      requires Fits(snapshot, site.State())
      modifies site
      ensures site.State() == Restore(old(site.State()), snapshot)
      ensures site.Valid()
    {
      site.files := snapshot.files;
      site.media := snapshot.media;
      site.journal := site.journal + [RolledBack];
    }

    /** The transaction object goes out of scope without a rollback. */
    method Commit()
      modifies site
      ensures site.State() == Finish(old(site.State()))
    {
      site.journal := site.journal + [Committed];
    }
  }

  class MediaSourceController {
    const site: Site
    const service: MediaSourceService

    constructor (service: MediaSourceService)
      ensures this.service == service && site == service.site
    {
      this.service := service;
      site := service.site;
    }

    /** `attachToMedia($media, $destination_field, $request)`. */
    method AttachToMedia(media: Media, destination: string, request: Request) returns (reply: Reply)
      requires site.Valid() && service.site == site
      modifies site, media
      ensures site.Valid()
      ensures Attach(reply, site.State(), media.fields)
        == AttachToMediaOutcome(site.host, service.lib, old(site.State()), service.account, media.id, media.bundle,
                                old(media.fields), destination, request)
    {
      var location := Header(request, ContentLocation);
      if Empty(location) {
        return Raised(BadRequest("Missing Content-Location header"));
      }
      var contentType := Header(request, ContentType);
      if Empty(contentType) {
        return Raised(BadRequest("Missing Content-Type header"));
      }

      var transaction := new Transaction.Start(site);
      var status := service.PutToMedia(media, destination, request.body, contentType, location);
      match status
      case Done =>
        transaction.Commit();
        reply := Responded(Complete);
      case Threw(e) =>
        if e.IsException() {
          transaction.RollBack();
          reply := Raised(Rethrown(e));
        } else {
          transaction.Commit();
          reply := Raised(e);
        }
    }
  }
}
