/**
 The host the ingestion code runs in, reduced to what it reads and writes:
 the file store (bytes by URI), the image-derivative cache, the saved File
 and Media rows, and the read-only configuration (media types and the
 `file_extensions` setting of each media field). Library calls whose
 internals are not part of this model (`basename`, `dirname`,
 `file_validate_extensions`, `prepareDirectory`) are function values of the
 `Library` record.
 */
module Drupal {
  import opened Php
  import opened Http

  newtype byte = x: int | 0 <= x < 256

  /** A stream-wrapper URI such as "public://2024-01/photo.jpg". */
  type Uri = string

  /** A File entity. `id` stays None until the entity is first saved. */
  datatype File = File(id: Option<nat>, uid: nat, uri: Uri, filename: string, mime: string, permanent: bool)

  /** One item of a field: its properties ("target_id", "value", "width", ...). */
  type FieldItem = map<string, Value>

  /** A Media entity's field values, by field name; a field present here is a field the media has. */
  type Fields = map<string, seq<FieldItem>>

  /** The property an entity reference item stores the referenced id in. */
  const TargetId := "target_id"

  /** The property a scalar `$media->set($field, $value)` stores its value in. */
  const MainProperty := "value"

  /** A media type (bundle): its `source_configuration['source_field']` and its field map. */
  datatype MediaType = MediaType(sourceField: Option<string>, fieldMap: seq<(string, string)>)

  /**
   What `stream_copy_to_stream` does with a request body: copies all of
   `bytes`, or fails (returns FALSE) after `partial` reached the destination.
   */
  datatype Body = Copied(bytes: seq<byte>) | CopyFailed(partial: seq<byte>)

  /** The side effects, in the order they happen. */
  datatype Effect =
    | Opened(uri: Uri)         // fopen($uri, 'wb'): the file is created or truncated
    | Unlinked(uri: Uri)       // unlink($uri)
    | Flushed(uri: Uri)        // image_path_flush($uri)
    | FileSaved(fid: nat)      // $file->save()
    | MediaSaved(mid: nat)     // $media->save()
    | Began                    // $database->startTransaction()
    | RolledBack               // $transaction->rollBack()
    | Committed                // the transaction object goes out of scope unrolled

  /** Everything the ingestion code can change, as one value. */
  datatype World = World(
    blobs: map<Uri, seq<byte>>,
    derivatives: set<Uri>,
    files: map<nat, File>,
    media: map<nat, Fields>,
    nextFileId: nat,
    journal: seq<Effect>)

  /** Saved File rows sit under their own id, and ids come from a counter that never goes back. */
  predicate Consistent(w: World) {
    forall k :: k in w.files ==> k < w.nextFileId && w.files[k].id == Some(k)
  }

  /**
   Read-only configuration and the behaviour of the store that the model
   does not derive: which URIs cannot be opened for writing, and whether
   saving a File or a Media row fails with a storage exception (and its message).
   */
  datatype Host = Host(
    mediaTypes: map<string, MediaType>,
    fileExtensions: map<(string, string), string>,
    unwritable: set<Uri>,
    fileSaveFault: Option<string>,
    mediaSaveFault: Option<string>)

  /** Library calls the model treats as given functions. */
  datatype Library = Library(
    basename: Uri -> string,
    dirname: Uri -> string,
    extensionAllowed: (string, string) -> bool,
    prepareDirectory: string -> bool)

  datatype FileSave = FileSave(status: Status, file: File, world: World)

  /**
   `$file->save()`: a new entity gets the next id, an existing one is
   written over its row; a storage fault throws and writes nothing.
   */
  function SaveFileOutcome(h: Host, w: World, f: File): (r: FileSave)
    requires Consistent(w)
    requires f.id.Some? ==> f.id.value in w.files
    ensures Consistent(r.world)
    ensures r.status.Done? <==> h.fileSaveFault.None?
    ensures r.status.Threw? ==> r == FileSave(Threw(OtherException(h.fileSaveFault.value)), f, w)
    ensures r.status.Done? ==>
      && r.file.id.Some?
      && r.file == f.(id := r.file.id)
      && (f.id.Some? ==> r.file.id == f.id)
      && (f.id.None? ==> r.file.id == Some(w.nextFileId) && r.file.id.value !in w.files)
      && r.world == w.(files := w.files[r.file.id.value := r.file],
                       nextFileId := if f.id.None? then w.nextFileId + 1 else w.nextFileId,
                       journal := w.journal + [FileSaved(r.file.id.value)])
  {
    if h.fileSaveFault.Some? then
      FileSave(Threw(OtherException(h.fileSaveFault.value)), f, w)
    else if f.id.None? then
      var saved := f.(id := Some(w.nextFileId));
      FileSave(Done, saved, w.(files := w.files[w.nextFileId := saved],
                               nextFileId := w.nextFileId + 1,
                               journal := w.journal + [FileSaved(w.nextFileId)]))
    else
      FileSave(Done, f, w.(files := w.files[f.id.value := f], journal := w.journal + [FileSaved(f.id.value)]))
  }

  datatype MediaSave = MediaSave(status: Status, world: World)

  /** `$media->save()`: writes the media row, or throws and writes nothing. */
  function SaveMediaOutcome(h: Host, w: World, id: nat, fields: Fields): (r: MediaSave)
    ensures r.status.Done? <==> h.mediaSaveFault.None?
    ensures r.status.Threw? ==> r == MediaSave(Threw(OtherException(h.mediaSaveFault.value)), w)
    ensures r.status.Done? ==> r.world == w.(media := w.media[id := fields], journal := w.journal + [MediaSaved(id)])
  {
    if h.mediaSaveFault.Some? then MediaSave(Threw(OtherException(h.mediaSaveFault.value)), w)
    else MediaSave(Done, w.(media := w.media[id := fields], journal := w.journal + [MediaSaved(id)]))
  }

  /** A loaded Media entity; the ingestion code changes its fields in place. */
  class Media {
    const id: nat
    const bundle: string
    var fields: Fields

    constructor (id: nat, bundle: string, fields: Fields)
      ensures this.id == id && this.bundle == bundle && this.fields == fields
    {
      this.id := id;
      this.bundle := bundle;
      this.fields := fields;
    }
  }

  /** The file store, the derivative cache and the entity tables. */
  class Site {
    const host: Host
    var blobs: map<Uri, seq<byte>>
    var derivatives: set<Uri>
    var files: map<nat, File>
    var media: map<nat, Fields>
    var nextFileId: nat
    var journal: seq<Effect>

    function State(): World
      reads this
    {
      World(blobs, derivatives, files, media, nextFileId, journal)
    }

    ghost predicate Valid()
      reads this
    {
      Consistent(State())
    }

    constructor (host: Host, w: World)
      requires Consistent(w)
      ensures Valid() && State() == w
    {
      this.host := host;
      blobs, derivatives, files, media := w.blobs, w.derivatives, w.files, w.media;
      nextFileId, journal := w.nextFileId, w.journal;
    }

    /** `fopen($uri, 'wb')`: fails on an unwritable URI, else creates or truncates the file. */
    method Open(uri: Uri) returns (ok: bool)
      modifies this
      ensures ok <==> uri !in host.unwritable
      ensures ok ==> State() == old(State()).(blobs := old(blobs)[uri := []], journal := old(journal) + [Opened(uri)])
      ensures !ok ==> State() == old(State())
    {
      ok := uri !in host.unwritable;
      if ok {
        blobs := blobs[uri := []];
        journal := journal + [Opened(uri)];
      }
    }

    /** The bytes a copy leaves in an opened file. */
    method Fill(uri: Uri, bytes: seq<byte>)
      modifies this
      ensures State() == old(State()).(blobs := old(blobs)[uri := bytes])
    {
      blobs := blobs[uri := bytes];
    }

    /** `unlink($uri)`. */
    method Unlink(uri: Uri)
      modifies this
      ensures State() == old(State()).(blobs := old(blobs) - {uri}, journal := old(journal) + [Unlinked(uri)])
    {
      blobs := blobs - {uri};
      journal := journal + [Unlinked(uri)];
    }

    /** `image_path_flush($uri)`: drops the cached derivatives of that URI. */
    method Flush(uri: Uri)
      modifies this
      ensures State() == old(State()).(derivatives := old(derivatives) - {uri}, journal := old(journal) + [Flushed(uri)])
    {
      derivatives := derivatives - {uri};
      journal := journal + [Flushed(uri)];
    }

    /** `$file->save()`. */
    method SaveFile(f: File) returns (status: Status, saved: File)
      requires Valid()
      requires f.id.Some? ==> f.id.value in files
      modifies this
      ensures Valid()
      ensures FileSave(status, saved, State()) == SaveFileOutcome(host, old(State()), f)
    {
      if host.fileSaveFault.Some? {
        return Threw(OtherException(host.fileSaveFault.value)), f;
      }
      if f.id.None? {
        saved := f.(id := Some(nextFileId));
        files := files[nextFileId := saved];
        journal := journal + [FileSaved(nextFileId)];
        nextFileId := nextFileId + 1;
      } else {
        saved := f;
        files := files[f.id.value := f];
        journal := journal + [FileSaved(f.id.value)];
      }
      status := Done;
    }

    /** `$media->save()`. */
    method SaveMedia(m: Media) returns (status: Status)
      modifies this
      ensures MediaSave(status, State()) == SaveMediaOutcome(host, old(State()), m.id, m.fields)
    {
      if host.mediaSaveFault.Some? {
        return Threw(OtherException(host.mediaSaveFault.value));
      }
      media := media[m.id := m.fields];
      journal := journal + [MediaSaved(m.id)];
      status := Done;
    }
  }
}
