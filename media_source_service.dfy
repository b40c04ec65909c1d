/**
 MediaSourceService: finds a media's source field and file, overwrites a
 file's bytes at its URI, attaches a new permanent file to a media field,
 and overwrites a media's source bytes while re-deriving mapped metadata.

 Each operation is stated twice: a function `...Outcome` over the `World`
 value gives its result and the new state, with the properties the code
 promises as postconditions, and a method of `MediaSourceService` performs
 it step by step on the `Site` and `Media` objects and is proved to end in
 exactly that state.
 */
module MediaSource {
  import opened Php
  import opened Http
  import opened Drupal

  // ---------------------------------------------------------------------------
  // Looking up the source field and the source file
  // ---------------------------------------------------------------------------

  /**
   `getSourceFieldName`: an unknown media type is a 404, a type whose
   source configuration has no `source_field` gives null, any other type
   gives the configured name.
   */
  function GetSourceFieldName(mediaTypes: map<string, MediaType>, mediaType: string): (r: Result<Option<string>>)
    ensures r.Err? <==> mediaType !in mediaTypes
    ensures r.Err? ==> r.error == NotFound("Bundle " + mediaType + " does not exist")
    ensures r == Ok(None) <==> mediaType in mediaTypes && mediaTypes[mediaType].sourceField.None?
    ensures r.Ok? && r.value.Some? ==> mediaTypes[mediaType].sourceField == r.value
  {
    if mediaType !in mediaTypes then Err(NotFound("Bundle " + mediaType + " does not exist"))
    else Ok(mediaTypes[mediaType].sourceField)
  }

  /** The id an item's `target_id` holds, if it holds one. */
  function TargetOf(item: FieldItem): Option<nat> {
    if TargetId in item && item[TargetId].Int? && item[TargetId].i >= 0 then Some(item[TargetId].i as nat) else None
  }

  /** Whether an item references a saved File. */
  predicate References(files: map<nat, File>, item: FieldItem) {
    TargetOf(item).Some? && TargetOf(item).value in files
  }

  /**
   `reset($field->referencedEntities())`: the saved File that the first
   referencing item points to, or None (PHP's `false`) when no item
   references a saved File.
   */
  function FirstReferenced(files: map<nat, File>, items: seq<FieldItem>): (r: Option<File>)
    ensures r.None? <==> forall j :: 0 <= j < |items| ==> !References(files, items[j])
    ensures r.Some? ==> exists j :: (0 <= j < |items| && References(files, items[j])
      && r.value == files[TargetOf(items[j]).value]
      && forall i :: 0 <= i < j ==> !References(files, items[i]))
  {
    if items == [] then None
    else if References(files, items[0]) then Some(files[TargetOf(items[0]).value])
    else
      var rest := FirstReferenced(files, items[1..]);
      assert forall j :: 1 <= j < |items| ==> items[j] == items[1..][j - 1];
      rest
  }

  /**
   `getSourceFile`: the first File the source field references. The media
   type's errors propagate; an unset, null, "" or "0" source field name is a
   404; a configured field the media does not have is the entity API's
   InvalidArgumentException; a field that references nothing gives None.
   */
  function GetSourceFile(mediaTypes: map<string, MediaType>, files: map<nat, File>, bundle: string, fields: Fields): (r: Result<Option<File>>)
    ensures GetSourceFieldName(mediaTypes, bundle).Err? ==> r == Err(GetSourceFieldName(mediaTypes, bundle).error)
    ensures GetSourceFieldName(mediaTypes, bundle).Ok? && EmptyOrNull(GetSourceFieldName(mediaTypes, bundle).value) ==>
      r == Err(NotFound("Source field not set for " + bundle + " media"))
    ensures r.Ok? ==> exists name :: (mediaTypes[bundle].sourceField == Some(name) && !Empty(name) && name in fields
      && r.value == FirstReferenced(files, fields[name]))
    ensures r.Ok? && r.value.Some? ==> r.value.value in files.Values
    ensures bundle in mediaTypes && mediaTypes[bundle].sourceField.Some? ==>
      var name := mediaTypes[bundle].sourceField.value;
      && (!Empty(name) && name !in fields ==> r == Err(OtherException("Field " + name + " is unknown.")))
      && (!Empty(name) && name in fields ==> r == Ok(FirstReferenced(files, fields[name])))
  {
    match GetSourceFieldName(mediaTypes, bundle)
    case Err(e) => Err(e)
    case Ok(name) =>
      if EmptyOrNull(name) then Err(NotFound("Source field not set for " + bundle + " media"))
      else if name.value !in fields then Err(OtherException("Field " + name.value + " is unknown."))
      else Ok(FirstReferenced(files, fields[name.value]))
  }

  // ---------------------------------------------------------------------------
  // updateFile
  // ---------------------------------------------------------------------------

  datatype FileUpdate = FileUpdate(status: Status, file: File, world: World)

  /**
   `updateFile`: opens the file's URI for writing (500 if that fails,
   before anything is copied), copies the body (500 if the copy fails, 400
   and the URI deleted if it copied nothing), then sets the MIME type when
   one is given and flushes the URI's image derivatives. Entity rows are
   never touched, and on every failure the File keeps its MIME type.
   */
  function UpdateFileOutcome(h: Host, w: World, file: File, body: Body, mimetype: string): (r: FileUpdate)
    ensures r.world.files == w.files && r.world.media == w.media && r.world.nextFileId == w.nextFileId
    ensures r.status.Done? <==> file.uri !in h.unwritable && body.Copied? && |body.bytes| > 0
    ensures r.status.Threw? ==> r.file == file
    ensures file.uri in h.unwritable ==>
      r == FileUpdate(Threw(ServerError("File " + file.uri + " could not be opened to write.")), file, w)
    ensures file.uri !in h.unwritable && body.CopyFailed? ==>
      && r.status == Threw(ServerError("Request body could not be copied to " + file.uri))
      && r.world == w.(blobs := w.blobs[file.uri := body.partial], journal := w.journal + [Opened(file.uri)])
    ensures file.uri !in h.unwritable && body.Copied? && |body.bytes| == 0 ==>
      && r.status == Threw(BadRequest("No bytes were copied to " + file.uri))
      && r.world == w.(blobs := w.blobs - {file.uri}, journal := w.journal + [Opened(file.uri), Unlinked(file.uri)])
    ensures r.status.Done? ==>
      && r.file == file.(mime := if Empty(mimetype) then file.mime else mimetype)
      && r.world == w.(blobs := w.blobs[file.uri := body.bytes], derivatives := w.derivatives - {file.uri},
                       journal := w.journal + [Opened(file.uri), Flushed(file.uri)])
  {
    var uri := file.uri;
    if uri in h.unwritable then
      FileUpdate(Threw(ServerError("File " + uri + " could not be opened to write.")), file, w)
    else
      var truncated := w.(blobs := w.blobs[uri := []], journal := w.journal + [Opened(uri)]);
      match body
      case CopyFailed(partial) =>
        FileUpdate(Threw(ServerError("Request body could not be copied to " + uri)), file,
                   truncated.(blobs := truncated.blobs[uri := partial]))
      case Copied(bytes) =>
        if |bytes| == 0 then
          FileUpdate(Threw(BadRequest("No bytes were copied to " + uri)), file,
                     truncated.(blobs := truncated.blobs - {uri}, journal := truncated.journal + [Unlinked(uri)]))
        else
          var written := truncated.(blobs := truncated.blobs[uri := bytes]);
          FileUpdate(Done, if Empty(mimetype) then file else file.(mime := mimetype),
                     written.(derivatives := written.derivatives - {uri}, journal := written.journal + [Flushed(uri)]))
  }

  // ---------------------------------------------------------------------------
  // putToMedia
  // ---------------------------------------------------------------------------

  /** How an ingestion ends: its status, the new state and the media's new (unsaved or saved) fields. */
  datatype Ingest = Ingest(status: Status, world: World, fields: Fields)

  /** What PHP raises when `load("media.<bundle>.<field>")` finds no field config. */
  const NoFieldConfig := "Call to a member function getSetting() on null"

  /** The File entity `putToMedia` creates before any check runs. */
  function NewFile(lib: Library, account: nat, mimetype: string, location: Uri): (r: File)
    ensures r.id.None? && r.permanent
    ensures r.uid == account && r.uri == location && r.filename == lib.basename(location) && r.mime == mimetype
  {
    File(None, account, location, lib.basename(location), mimetype, true)
  }

  /**
   `putToMedia`: the checks run in the order field exists, extension
   allowed, directory prepared, and each failure leaves the state as it
   was; then the bytes are written, the new permanent File saved, the
   media field pointed at it and the media saved.
   */
  function PutToMediaOutcome(h: Host, lib: Library, w: World, account: nat, mediaId: nat, bundle: string, fields: Fields,
                             destination: string, body: Body, mimetype: string, location: Uri): (r: Ingest)
    requires Consistent(w)
    ensures Consistent(r.world) && w.nextFileId <= r.world.nextFileId
    // A PHP error (no field config for the destination) comes before any side effect.
    ensures r.status.Threw? && r.status.error.PhpError? ==> r.world == w && r.fields == fields
    // No destination field: nothing is created, written or saved.
    ensures destination !in fields ==>
      r == Ingest(Threw(BadRequest("Media does not have destination field " + destination)), w, fields)
    // No field configuration for the destination: the call on null is a PHP error, thrown before any side effect.
    ensures destination in fields && (bundle, destination) !in h.fileExtensions ==>
      r == Ingest(Threw(PhpError(NoFieldConfig)), w, fields)
    // A refused extension: 400 naming the valid extensions, before any directory or byte is touched.
    ensures destination in fields && (bundle, destination) in h.fileExtensions
            && !lib.extensionAllowed(lib.basename(location), h.fileExtensions[(bundle, destination)]) ==>
      r == Ingest(Threw(BadRequest("Invalid file extension.  Valid types are " + h.fileExtensions[(bundle, destination)])), w, fields)
    // A directory that cannot be prepared: 500 before any byte is written.
    ensures destination in fields && (bundle, destination) in h.fileExtensions
            && lib.extensionAllowed(lib.basename(location), h.fileExtensions[(bundle, destination)])
            && !lib.prepareDirectory(lib.dirname(location)) ==>
      r == Ingest(Threw(ServerError("The destination directory does not exist, could not be created, or is not writable")), w, fields)
    // When it succeeds, and what it then has done.
    ensures r.status.Done? <==>
      && destination in fields && (bundle, destination) in h.fileExtensions
      && lib.extensionAllowed(lib.basename(location), h.fileExtensions[(bundle, destination)])
      && lib.prepareDirectory(lib.dirname(location))
      && location !in h.unwritable && body.Copied? && |body.bytes| > 0
      && h.fileSaveFault.None? && h.mediaSaveFault.None?
    ensures r.status.Done? ==>
      var id := w.nextFileId;
      && id !in w.files
      && r.world.blobs == w.blobs[location := body.bytes]
      && r.world.files == w.files[id := File(Some(id), account, location, lib.basename(location), mimetype, true)]
      && r.fields == fields[destination := [map[TargetId := Int(id)]]]
      && r.world.media == w.media[mediaId := r.fields]
      && r.world.journal == w.journal + [Opened(location), Flushed(location), FileSaved(id), MediaSaved(mediaId)]
      && r.world.derivatives == w.derivatives - {location}
      && r.world.nextFileId == w.nextFileId + 1
    // A failure never saves the media row, and saves a File row only when the media save is what failed.
    ensures r.status.Threw? ==> r.world.media == w.media
    ensures r.status.Threw? && r.world.files != w.files ==>
      h.mediaSaveFault.Some? && r.status == Threw(OtherException(h.mediaSaveFault.value))
    // An empty body that passed every check: the truncated file is unlinked and no File row is made.
    ensures destination in fields && (bundle, destination) in h.fileExtensions
            && lib.extensionAllowed(lib.basename(location), h.fileExtensions[(bundle, destination)])
            && lib.prepareDirectory(lib.dirname(location))
            && location !in h.unwritable && body == Copied([]) ==>
      r == Ingest(Threw(BadRequest("No bytes were copied to " + location)),
                  w.(blobs := w.blobs - {location}, journal := w.journal + [Opened(location), Unlinked(location)]), fields)
  {
    if destination !in fields then
      Ingest(Threw(BadRequest("Media does not have destination field " + destination)), w, fields)
    else
      var file := NewFile(lib, account, mimetype, location);
      if (bundle, destination) !in h.fileExtensions then
        Ingest(Threw(PhpError(NoFieldConfig)), w, fields)
      else
        var extensions := h.fileExtensions[(bundle, destination)];
        if !lib.extensionAllowed(file.filename, extensions) then
          Ingest(Threw(BadRequest("Invalid file extension.  Valid types are " + extensions)), w, fields)
        else if !lib.prepareDirectory(lib.dirname(location)) then
          Ingest(Threw(ServerError("The destination directory does not exist, could not be created, or is not writable")), w, fields)
        else
          var u := UpdateFileOutcome(h, w, file, body, mimetype);
          if u.status.Threw? then Ingest(u.status, u.world, fields)
          else
            var s := SaveFileOutcome(h, u.world, u.file);
            if s.status.Threw? then Ingest(s.status, s.world, fields)
            else
              var attached := fields[destination := [map[TargetId := Int(s.file.id.value)]]];
              var m := SaveMediaOutcome(h, s.world, mediaId, attached);
              Ingest(m.status, m.world, attached)
  }

  /**
   Once every check of `putToMedia` passes, a failed write is `updateFile`'s
   error and a failed File or media save is the storage exception; whatever
   was written or saved before the failure stays.
   */
  lemma PutToMediaFailures(h: Host, lib: Library, w: World, account: nat, mediaId: nat, bundle: string, fields: Fields,
                           destination: string, body: Body, mimetype: string, location: Uri)
    requires Consistent(w)
    requires destination in fields && (bundle, destination) in h.fileExtensions
    requires lib.extensionAllowed(lib.basename(location), h.fileExtensions[(bundle, destination)])
    requires lib.prepareDirectory(lib.dirname(location))
    ensures var r := PutToMediaOutcome(h, lib, w, account, mediaId, bundle, fields, destination, body, mimetype, location);
      var u := UpdateFileOutcome(h, w, NewFile(lib, account, mimetype, location), body, mimetype);
      && (u.status.Threw? ==> r == Ingest(u.status, u.world, fields))
      && (u.status.Done? && h.fileSaveFault.Some? ==> r == Ingest(Threw(OtherException(h.fileSaveFault.value)), u.world, fields))
      && (u.status.Done? && h.fileSaveFault.None? && h.mediaSaveFault.Some? ==>
            var s := SaveFileOutcome(h, u.world, u.file);
            r == Ingest(Threw(OtherException(h.mediaSaveFault.value)), s.world,
                        fields[destination := [map[TargetId := Int(s.file.id.value)]]]))
  {
  }

  // ---------------------------------------------------------------------------
  // updateSourceField: the field-map loop
  // ---------------------------------------------------------------------------

  /** The loop's state: the media's fields and PHP's `$value`, which outlives each iteration. */
  datatype Mapping = Mapping(fields: Fields, value: Value)

  /** The source field has a first item for `->first()` to return. */
  predicate HasFirstItem(fields: Fields, sourceField: string) {
    sourceField in fields && |fields[sourceField]| > 0
  }

  /** `->first()->set($property, $value)` on a field's item list. */
  function SetFirst(items: seq<FieldItem>, property: string, v: Value): (r: seq<FieldItem>)
    requires |items| > 0
    ensures |r| == |items| && r[0] == items[0][property := v] && r[1..] == items[1..]
  {
    [items[0][property := v]] + items[1..]
  }

  predicate IsDimension(key: string) {
    key == "width" || key == "height"
  }

  /**
   One iteration for the field-map pair (source, destination). `$value` is
   reassigned only when the media has the destination field, because
   `&&` short-circuits; the destination is set only when that value is
   truthy; and for width and height the source field's first item gets
   `$value` whatever happened before, stale or null included.
   */
  function MapStep(m: Mapping, sourceField: string, entry: (string, string), metadata: string -> Value): (r: Mapping)
    requires HasFirstItem(m.fields, sourceField)
    ensures HasFirstItem(r.fields, sourceField) && r.fields.Keys == m.fields.Keys
    ensures r.value == if entry.1 in m.fields then metadata(entry.0) else m.value
    ensures IsDimension(entry.0) ==> entry.0 in r.fields[sourceField][0] && r.fields[sourceField][0][entry.0] == r.value
    ensures forall k :: k in m.fields && k != sourceField && k != entry.1 ==> r.fields[k] == m.fields[k]
    ensures var written := if entry.1 in m.fields && Truthy(r.value)
                           then m.fields[entry.1 := [map[MainProperty := r.value]]] else m.fields;
      r.fields == if IsDimension(entry.0) then written[sourceField := SetFirst(written[sourceField], entry.0, r.value)]
                  else written
  {
    var (source, destination) := entry;
    var value := if destination in m.fields then metadata(source) else m.value;
    var withValue := if destination in m.fields && Truthy(value)
               then m.fields[destination := [map[MainProperty := value]]] else m.fields;
    var dims := if IsDimension(source) then withValue[sourceField := SetFirst(withValue[sourceField], source, value)] else withValue;
    Mapping(dims, value)
  }

  /** The whole `foreach` over the media type's field map, in order. */
  function ApplyFieldMap(m: Mapping, sourceField: string, entries: seq<(string, string)>, metadata: string -> Value): (r: Mapping)
    requires HasFirstItem(m.fields, sourceField)
    ensures HasFirstItem(r.fields, sourceField) && r.fields.Keys == m.fields.Keys
    decreases |entries|
  {
    if entries == [] then m
    else MapStep(ApplyFieldMap(m, sourceField, entries[..|entries| - 1], metadata), sourceField, entries[|entries| - 1], metadata)
  }

  /**
   Reference definition of what a field other than the source field ends
   up holding: the last truthy metadata value mapped to it, if any.
   */
  function LastWrite(entries: seq<(string, string)>, field: string, metadata: string -> Value): Option<Value> {
    if entries == [] then None
    else
      var (source, destination) := entries[|entries| - 1];
      if destination == field && Truthy(metadata(source)) then Some(metadata(source))
      else LastWrite(entries[..|entries| - 1], field, metadata)
  }

  /**
   A field of the media other than the source field ends up holding the
   last truthy metadata value mapped to it, and is untouched when no pair
   maps a truthy value to it.
   */
  lemma {:induction false} ApplyFieldMapSetsLastTruthy(m: Mapping, sourceField: string, entries: seq<(string, string)>,
                                                       metadata: string -> Value, field: string)
    requires HasFirstItem(m.fields, sourceField)
    requires field in m.fields && field != sourceField
    ensures ApplyFieldMap(m, sourceField, entries, metadata).fields[field] ==
      match LastWrite(entries, field, metadata)
      case Some(v) => [map[MainProperty := v]]
      case None => m.fields[field]
  {
    if entries != [] {
      ApplyFieldMapSetsLastTruthy(m, sourceField, entries[..|entries| - 1], metadata, field);
    }
  }

  /** The `$value` the loop holds after `entries`: it depends only on which fields the media has. */
  function ValueAfter(keys: set<string>, entries: seq<(string, string)>, metadata: string -> Value, initial: Value): Value
    decreases |entries|
  {
    if entries == [] then initial
    else if entries[|entries| - 1].1 in keys then metadata(entries[|entries| - 1].0)
    else ValueAfter(keys, entries[..|entries| - 1], metadata, initial)
  }

  /**
   What a run of the loop does to the source field's items: either they
   are replaced by a fixed list (the field map writes the source field
   itself), or only properties of the first item are overwritten.
   */
  datatype SourceEdit = Replaced(items: seq<FieldItem>) | Patched(props: map<string, Value>)

  predicate WellFormedEdit(e: SourceEdit) {
    e.Replaced? ==> |e.items| > 0
  }

  function ApplyEdit(e: SourceEdit, items: seq<FieldItem>): seq<FieldItem>
    requires WellFormedEdit(e) && |items| > 0
  {
    match e
    case Replaced(fixed) => fixed
    case Patched(props) => [items[0] + props] + items[1..]
  }

  /** `->first()->set($property, $v)` after the edit. */
  function SetProperty(e: SourceEdit, property: string, v: Value): (r: SourceEdit)
    requires WellFormedEdit(e)
    ensures WellFormedEdit(r)
  {
    match e
    case Replaced(fixed) => Replaced(SetFirst(fixed, property, v))
    case Patched(props) => Patched(props[property := v])
  }

  /** Setting a property on an edit is the same as setting it on the edited items. */
  lemma SetPropertyApplies(e: SourceEdit, property: string, v: Value, items: seq<FieldItem>)
    requires WellFormedEdit(e) && |items| > 0
    ensures ApplyEdit(SetProperty(e, property, v), items) == SetFirst(ApplyEdit(e, items), property, v)
  {
    if e.Patched? {
      assert (items[0] + e.props)[property := v] == items[0] + e.props[property := v];
    }
  }

  /** The edit `entries` make to the source field, for a media with fields `keys`. */
  function EditOf(keys: set<string>, sourceField: string, entries: seq<(string, string)>, metadata: string -> Value,
                  initial: Value): (r: SourceEdit)
    ensures WellFormedEdit(r)
    decreases |entries|
  {
    if entries == [] then Patched(map[])
    else
      var (source, destination) := entries[|entries| - 1];
      var v := ValueAfter(keys, entries, metadata, initial);
      var prior := EditOf(keys, sourceField, entries[..|entries| - 1], metadata, initial);
      var written := if destination == sourceField && destination in keys && Truthy(v)
                     then Replaced([map[MainProperty := v]]) else prior;
      if IsDimension(source) then SetProperty(written, source, v) else written
  }

  /** Applying an edit twice is applying it once. */
  lemma ApplyEditIdempotent(e: SourceEdit, items: seq<FieldItem>)
    requires WellFormedEdit(e) && |items| > 0
    ensures ApplyEdit(e, ApplyEdit(e, items)) == ApplyEdit(e, items)
  {
    if e.Patched? {
      assert items[0] + e.props + e.props == items[0] + e.props;
    }
  }

  /** One iteration extends the edit made so far to the source field. */
  lemma MapStepEdit(prev: Mapping, sourceField: string, entry: (string, string), metadata: string -> Value,
                    prior: SourceEdit, items: seq<FieldItem>)
    requires HasFirstItem(prev.fields, sourceField) && WellFormedEdit(prior) && |items| > 0
    requires prev.fields[sourceField] == ApplyEdit(prior, items)
    ensures var r := MapStep(prev, sourceField, entry, metadata);
      var written := if entry.1 == sourceField && entry.1 in prev.fields && Truthy(r.value)
                     then Replaced([map[MainProperty := r.value]]) else prior;
      r.fields[sourceField] == ApplyEdit(if IsDimension(entry.0) then SetProperty(written, entry.0, r.value) else written, items)
  {
    var r := MapStep(prev, sourceField, entry, metadata);
    var overwrites := entry.1 == sourceField && entry.1 in prev.fields && Truthy(r.value);
    var written := if overwrites then Replaced([map[MainProperty := r.value]]) else prior;
    var fields := if entry.1 in prev.fields && Truthy(r.value)
                  then prev.fields[entry.1 := [map[MainProperty := r.value]]] else prev.fields;
    if overwrites {
      assert fields[sourceField] == [map[MainProperty := r.value]];
    } else {
      assert fields[sourceField] == prev.fields[sourceField];
    }
    assert fields[sourceField] == ApplyEdit(written, items);
    if IsDimension(entry.0) {
      assert r.fields[sourceField] == SetFirst(fields[sourceField], entry.0, r.value);
      SetPropertyApplies(written, entry.0, r.value, items);
    } else {
      assert r.fields[sourceField] == fields[sourceField];
    }
  }

  /** The loop's `$value` and its effect on the source field, in terms of `ValueAfter` and `EditOf`. */
  lemma {:induction false} ApplyFieldMapByEdit(m: Mapping, sourceField: string, entries: seq<(string, string)>,
                                               metadata: string -> Value)
    requires HasFirstItem(m.fields, sourceField)
    ensures var r := ApplyFieldMap(m, sourceField, entries, metadata);
      && r.value == ValueAfter(m.fields.Keys, entries, metadata, m.value)
      && r.fields[sourceField] == ApplyEdit(EditOf(m.fields.Keys, sourceField, entries, metadata, m.value), m.fields[sourceField])
    decreases |entries|
  {
    if entries == [] {
      var items := m.fields[sourceField];
      assert items[0] + map[] == items[0];
      assert [items[0]] + items[1..] == items;
    } else {
      var prefix := entries[..|entries| - 1];
      ApplyFieldMapByEdit(m, sourceField, prefix, metadata);
      var prev := ApplyFieldMap(m, sourceField, prefix, metadata);
      var entry := entries[|entries| - 1];
      var prior := EditOf(m.fields.Keys, sourceField, prefix, metadata, m.value);
      MapStepEdit(prev, sourceField, entry, metadata, prior, m.fields[sourceField]);
      var r := MapStep(prev, sourceField, entry, metadata);
      assert ApplyFieldMap(m, sourceField, entries, metadata) == r;
      var v := ValueAfter(m.fields.Keys, entries, metadata, m.value);
      assert r.value == v;
      var written := if entry.1 == sourceField && entry.1 in m.fields.Keys && Truthy(v)
                     then Replaced([map[MainProperty := v]]) else prior;
      assert EditOf(m.fields.Keys, sourceField, entries, metadata, m.value)
          == if IsDimension(entry.0) then SetProperty(written, entry.0, v) else written;
    }
  }

  /**
   Replacing the source twice with the same content derives the same
   values: running the field map again over its own result changes no
   field, the source field's width and height included.
   */
  lemma ApplyFieldMapIdempotent(fields: Fields, sourceField: string, entries: seq<(string, string)>,
                                metadata: string -> Value)
    requires HasFirstItem(fields, sourceField)
    ensures var once := ApplyFieldMap(Mapping(fields, Null), sourceField, entries, metadata).fields;
      ApplyFieldMap(Mapping(once, Null), sourceField, entries, metadata).fields == once
  {
    var once := ApplyFieldMap(Mapping(fields, Null), sourceField, entries, metadata).fields;
    var twice := ApplyFieldMap(Mapping(once, Null), sourceField, entries, metadata).fields;
    forall field | field in once && field != sourceField
      ensures twice[field] == once[field]
    {
      ApplyFieldMapSetsLastTruthy(Mapping(fields, Null), sourceField, entries, metadata, field);
      ApplyFieldMapSetsLastTruthy(Mapping(once, Null), sourceField, entries, metadata, field);
    }
    ApplyFieldMapByEdit(Mapping(fields, Null), sourceField, entries, metadata);
    ApplyFieldMapByEdit(Mapping(once, Null), sourceField, entries, metadata);
    ApplyEditIdempotent(EditOf(fields.Keys, sourceField, entries, metadata, Null), fields[sourceField]);
  }

  /**
   The stale-value quirk: with the pairs width → field_width and
   height → a field the media lacks, the source item's height is set to the
   width metadata, because `$value` was not reassigned for height.
   */
  lemma StaleHeight(fields: Fields, sourceField: string, widthField: string, heightField: string, metadata: string -> Value)
    requires HasFirstItem(fields, sourceField)
    requires widthField in fields && heightField !in fields
    ensures var r := ApplyFieldMap(Mapping(fields, Null), sourceField, [("width", widthField), ("height", heightField)], metadata);
      r.fields[sourceField][0]["height"] == metadata("width")
  {
    var entries := [("width", widthField), ("height", heightField)];
    assert entries[..1] == [("width", widthField)];
    assert entries[..1][..0] == [];
  }

  // ---------------------------------------------------------------------------
  // updateSourceField
  // ---------------------------------------------------------------------------

  /** What PHP raises when `reset()` gave `false` and it reaches `updateFile(FileInterface $file, ...)`. */
  const NotAFile := "MediaSourceService::updateFile(): Argument #1 ($file) must be of type FileInterface, bool given"

  /**
   The part of `updateSourceField` after the source file is found: write
   and save the file, then map the metadata and save the media.
   */
  function ReplaceSourceOutcome(h: Host, w: World, file: File, sourceField: string, mediaId: nat, fields: Fields,
                         fieldMap: seq<(string, string)>, body: Body, mimetype: string, metadata: string -> Value): (r: Ingest)
    requires Consistent(w) && file.id.Some? && file.id.value in w.files
    requires HasFirstItem(fields, sourceField)
    ensures Consistent(r.world)
    ensures r.fields != fields ==>
      && |r.world.journal| >= |w.journal| + 3
      && r.world.journal[..|w.journal| + 3] == w.journal + [Opened(file.uri), Flushed(file.uri), FileSaved(file.id.value)]
    ensures r.status.Done? <==>
      file.uri !in h.unwritable && body.Copied? && |body.bytes| > 0 && h.fileSaveFault.None? && h.mediaSaveFault.None?
    ensures r.status.Done? ==>
      && body.Copied?
      && r.world.blobs == w.blobs[file.uri := body.bytes]
      && r.world.derivatives == w.derivatives - {file.uri}
      && r.world.nextFileId == w.nextFileId
      && r.world.files == w.files[file.id.value := file.(mime := if Empty(mimetype) then file.mime else mimetype)]
      && r.world.media == w.media[mediaId := r.fields]
      && r.world.journal == w.journal + [Opened(file.uri), Flushed(file.uri), FileSaved(file.id.value), MediaSaved(mediaId)]
      && r.fields == ApplyFieldMap(Mapping(fields, Null), sourceField, fieldMap, metadata).fields
    // A failed write, a failed File save and a failed media save are thrown as they are;
    // whatever was written or saved before the failure stays, and no media row changes.
    ensures var u := UpdateFileOutcome(h, w, file, body, mimetype);
      && (u.status.Threw? ==> r == Ingest(u.status, u.world, fields))
      && (u.status.Done? && h.fileSaveFault.Some? ==> r == Ingest(Threw(OtherException(h.fileSaveFault.value)), u.world, fields))
      && (u.status.Done? && h.fileSaveFault.None? && h.mediaSaveFault.Some? ==>
            r == Ingest(Threw(OtherException(h.mediaSaveFault.value)), SaveFileOutcome(h, u.world, u.file).world,
                        ApplyFieldMap(Mapping(fields, Null), sourceField, fieldMap, metadata).fields))
    ensures r.status.Threw? ==> r.world.media == w.media
    ensures file.uri !in h.unwritable && body == Copied([]) ==>
      r == Ingest(Threw(BadRequest("No bytes were copied to " + file.uri)),
                  w.(blobs := w.blobs - {file.uri}, journal := w.journal + [Opened(file.uri), Unlinked(file.uri)]), fields)
  {
    var u := UpdateFileOutcome(h, w, file, body, mimetype);
    if u.status.Threw? then Ingest(u.status, u.world, fields)
    else
      var s := SaveFileOutcome(h, u.world, u.file);
      if s.status.Threw? then Ingest(s.status, s.world, fields)
      else
        var mapped := ApplyFieldMap(Mapping(fields, Null), sourceField, fieldMap, metadata);
        var m := SaveMediaOutcome(h, s.world, mediaId, mapped.fields);
        Ingest(m.status, m.world, mapped.fields)
  }

  /**
   `updateSourceField`: looks up the source file (lookup failures change
   nothing), then overwrites its bytes and re-derives the mapped fields.
   */
  function UpdateSourceFieldOutcome(h: Host, w: World, mediaId: nat, bundle: string, fields: Fields,
                                    body: Body, mimetype: string, metadata: string -> Value): (r: Ingest)
    requires Consistent(w)
    ensures Consistent(r.world)
    ensures bundle !in h.mediaTypes ==> r == Ingest(Threw(NotFound("Bundle " + bundle + " does not exist")), w, fields)
    ensures bundle in h.mediaTypes && EmptyOrNull(h.mediaTypes[bundle].sourceField) ==>
      r == Ingest(Threw(NotFound("Source field not set for " + bundle + " media")), w, fields)
    ensures var src := GetSourceFile(h.mediaTypes, w.files, bundle, fields);
      src.Ok? && src.value.None? ==> r == Ingest(Threw(PhpError(NotAFile)), w, fields)
    ensures var src := GetSourceFile(h.mediaTypes, w.files, bundle, fields);
      src.Ok? && src.value.Some? ==>
        && src.value.value.id.Some? && src.value.value.id.value in w.files
        && HasFirstItem(fields, h.mediaTypes[bundle].sourceField.value)
        && r == ReplaceSourceOutcome(h, w, src.value.value, h.mediaTypes[bundle].sourceField.value, mediaId, fields,
                              h.mediaTypes[bundle].fieldMap, body, mimetype, metadata)
    ensures r.status.Done? ==> GetSourceFile(h.mediaTypes, w.files, bundle, fields).Ok?
    // Every lookup failure is thrown as it is, and changes nothing.
    ensures var src := GetSourceFile(h.mediaTypes, w.files, bundle, fields);
      src.Err? ==> r == Ingest(Threw(src.error), w, fields)
  {
    match GetSourceFieldName(h.mediaTypes, bundle)
    case Err(e) => Ingest(Threw(e), w, fields)
    case Ok(sourceField) =>
      match GetSourceFile(h.mediaTypes, w.files, bundle, fields)
      case Err(e) => Ingest(Threw(e), w, fields)
      case Ok(None) => Ingest(Threw(PhpError(NotAFile)), w, fields)
      case Ok(Some(file)) =>
        SourceFileIsSaved(h.mediaTypes, w, bundle, fields);
        ReplaceSourceOutcome(h, w, file, sourceField.value, mediaId, fields, h.mediaTypes[bundle].fieldMap, body, mimetype, metadata)
  }

  /** A source file that is found is a saved row, under its own id, and its field has a first item. */
  lemma SourceFileIsSaved(mediaTypes: map<string, MediaType>, w: World, bundle: string, fields: Fields)
    requires Consistent(w)
    requires GetSourceFile(mediaTypes, w.files, bundle, fields).Ok?
    requires GetSourceFile(mediaTypes, w.files, bundle, fields).value.Some?
    ensures var f := GetSourceFile(mediaTypes, w.files, bundle, fields).value.value;
      f.id.Some? && f.id.value in w.files && w.files[f.id.value] == f
    ensures HasFirstItem(fields, mediaTypes[bundle].sourceField.value)
  {
    var f := GetSourceFile(mediaTypes, w.files, bundle, fields).value.value;
    var k :| k in w.files && w.files[k] == f;
  }

  // ---------------------------------------------------------------------------
  // The service itself
  // ---------------------------------------------------------------------------

  /**
   The service object: it holds the host, the library calls and the
   current user's id, and performs each operation on the `Site` and the
   `Media` object in place.
   */
  class MediaSourceService {
    const site: Site
    const lib: Library
    const account: nat

    constructor (site: Site, lib: Library, account: nat)
      ensures this.site == site && this.lib == lib && this.account == account
    {
      this.site := site;
      this.lib := lib;
      this.account := account;
    }

    /** `updateFile($file, $resource, $mimetype)`. */
    method UpdateFile(file: File, body: Body, mimetype: string) returns (status: Status, updated: File)
      modifies site
      ensures FileUpdate(status, updated, site.State()) == UpdateFileOutcome(site.host, old(site.State()), file, body, mimetype)
    {
      var uri := file.uri;
      var ok := site.Open(uri);
      if !ok {
        return Threw(ServerError("File " + uri + " could not be opened to write.")), file;
      }
      match body
      case CopyFailed(partial) =>
        site.Fill(uri, partial);
        return Threw(ServerError("Request body could not be copied to " + uri)), file;
      case Copied(bytes) =>
        site.Fill(uri, bytes);
        if |bytes| == 0 {
          site.Unlink(uri);
          return Threw(BadRequest("No bytes were copied to " + uri)), file;
        }
        updated := if Empty(mimetype) then file else file.(mime := mimetype);
        site.Flush(uri);
        status := Done;
    }

    /** `putToMedia($media, $destination_field, $resource, $mimetype, $content_location)`. */
    method PutToMedia(media: Media, destination: string, body: Body, mimetype: string, location: Uri) returns (status: Status)
      requires site.Valid()
      modifies site, media
      ensures site.Valid()
      ensures Ingest(status, site.State(), media.fields)
        == PutToMediaOutcome(site.host, lib, old(site.State()), account, media.id, media.bundle, old(media.fields),
                             destination, body, mimetype, location)
    {
      if destination !in media.fields {
        return Threw(BadRequest("Media does not have destination field " + destination));
      }
      var file := NewFile(lib, account, mimetype, location);
      var bundle := media.bundle;
      if (bundle, destination) !in site.host.fileExtensions {
        return Threw(PhpError(NoFieldConfig));
      }
      var extensions := site.host.fileExtensions[(bundle, destination)];
      if !lib.extensionAllowed(file.filename, extensions) {
        return Threw(BadRequest("Invalid file extension.  Valid types are " + extensions));
      }
      if !lib.prepareDirectory(lib.dirname(location)) {
        return Threw(ServerError("The destination directory does not exist, could not be created, or is not writable"));
      }
      status, file := UpdateFile(file, body, mimetype);
      if status.Threw? {
        return;
      }
      status, file := site.SaveFile(file);
      if status.Threw? {
        return;
      }
      media.fields := media.fields[destination := [map[TargetId := Int(file.id.value)]]];
      status := site.SaveMedia(media);
    }

    /** `updateSourceField($media, $resource, $mimetype)`; `metadata` answers `getMetadata($media, $key)`. */
    method UpdateSourceField(media: Media, body: Body, mimetype: string, metadata: string -> Value) returns (status: Status)
      requires site.Valid()
      modifies site, media
      ensures site.Valid()
      ensures Ingest(status, site.State(), media.fields)
        == UpdateSourceFieldOutcome(site.host, old(site.State()), media.id, media.bundle, old(media.fields),
                                    body, mimetype, metadata)
    {
      var name := GetSourceFieldName(site.host.mediaTypes, media.bundle);
      if name.Err? {
        return Threw(name.error);
      }
      var found := GetSourceFile(site.host.mediaTypes, site.files, media.bundle, media.fields);
      if found.Err? {
        return Threw(found.error);
      }
      if found.value.None? {
        return Threw(PhpError(NotAFile));
      }
      SourceFileIsSaved(site.host.mediaTypes, site.State(), media.bundle, media.fields);
      status := ReplaceSource(media, found.value.value, name.value.value, body, mimetype, metadata);
    }

    /** The steps of `updateSourceField` from `updateFile` on. */
    method ReplaceSource(media: Media, file: File, sourceField: string, body: Body, mimetype: string,
                         metadata: string -> Value) returns (status: Status)
      requires site.Valid() && file.id.Some? && file.id.value in site.files
      requires HasFirstItem(media.fields, sourceField) && media.bundle in site.host.mediaTypes
      modifies site, media
      ensures site.Valid()
      ensures Ingest(status, site.State(), media.fields)
        == ReplaceSourceOutcome(site.host, old(site.State()), file, sourceField, media.id, old(media.fields),
                         site.host.mediaTypes[media.bundle].fieldMap, body, mimetype, metadata)
    {
      var updated;
      status, updated := UpdateFile(file, body, mimetype);
      if status.Threw? {
        return;
      }
      status, updated := site.SaveFile(updated);
      if status.Threw? {
        return;
      }
      MapFields(media, sourceField, site.host.mediaTypes[media.bundle].fieldMap, metadata);
      status := site.SaveMedia(media);
    }

    /** The `foreach` over the media type's field map. */
    method MapFields(media: Media, sourceField: string, fieldMap: seq<(string, string)>, metadata: string -> Value)
      requires HasFirstItem(media.fields, sourceField)
      modifies media
      ensures media.fields == ApplyFieldMap(Mapping(old(media.fields), Null), sourceField, fieldMap, metadata).fields
    {
      var value := Null;
      var i := 0;
      while i < |fieldMap|
        invariant 0 <= i <= |fieldMap|
        invariant Mapping(media.fields, value) == ApplyFieldMap(Mapping(old(media.fields), Null), sourceField, fieldMap[..i], metadata)
      {
        var (source, destination) := fieldMap[i];
        if destination in media.fields {
          value := metadata(source);
          if Truthy(value) {
            media.fields := media.fields[destination := [map[MainProperty := value]]];
          }
        }
        if IsDimension(source) {
          media.fields := media.fields[sourceField := SetFirst(media.fields[sourceField], source, value)];
        }
        assert fieldMap[..i + 1][..i] == fieldMap[..i];
        i := i + 1;
      }
      assert fieldMap[..i] == fieldMap;
    }
  }
}
