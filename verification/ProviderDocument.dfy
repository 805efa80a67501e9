/**
 The `llm-providers` list of the runtime configuration: what an edit of the list computes, what the
 write chain leaves in the file, and what every run of create, update, delete and select keeps.
 */
module ProviderDocument {
  import opened Basics

  /** A YAML value; a mapping is taken without the order of its keys. */
  datatype Value =
    | Null
    | Text(text: string)
    | Sequence(items: seq<Value>)
    | Mapping(fields: map<Value, Value>)
    | Scalar(repr: string)

  const ID: Value := Text("id")
  const PROVIDERS: Value := Text("llm-providers")

  datatype Refusal = AlreadyExists | NotFound | Invalid | Io | LastProvider | Referenced

  datatype Edit =
    | Create(entry: Value)
    | Update(entry: Value)
    | Remove(id: string)
    | Select(id: string)
  {
    /** The id an edit is about; an entry may fail to name one. */
    function Target(): Option<string> {
      match this
      case Create(entry) => IdOf(entry)
      case Update(entry) => IdOf(entry)
      case Remove(id) => Some(id)
      case Select(id) => Some(id)
    }
  }

  datatype Edited = Done(entries: seq<Value>) | Refused(refusal: Refusal)

  function IdOf(entry: Value): Option<string> {
    if entry.Mapping? && ID in entry.fields && entry.fields[ID].Text? then Some(entry.fields[ID].text) else None
  }

  /** The first entry of that id, or the length. */
  function First(entries: seq<Value>, id: string): (i: nat)
    ensures i <= |entries|
    ensures i < |entries| ==> IdOf(entries[i]) == Some(id)
    ensures forall k :: 0 <= k < i ==> IdOf(entries[k]) != Some(id)
  {
    if entries == [] || IdOf(entries[0]) == Some(id) then 0 else 1 + First(entries[1..], id)
  }

  function WithoutNulls(fields: map<Value, Value>): map<Value, Value> {
    map k | k in fields && fields[k] != Null :: fields[k]
  }

  /** The key is one the patch decides. */
  predicate Named(patch: map<Value, Value>, key: Value) {
    key in patch && key != ID
  }

  /** The patch over the fields: its id does not count, and null stands for no such key. */
  function Merged(fields: map<Value, Value>, patch: map<Value, Value>): map<Value, Value> {
    map k | k in fields.Keys + patch.Keys && (if Named(patch, k) then patch[k] != Null else k in fields) ::
      if Named(patch, k) then patch[k] else fields[k]
  }

  function Apply(entries: seq<Value>, edit: Edit): Edited {
    if edit.Target().None? then Refused(Invalid)
    else
      var i := First(entries, edit.Target().value);
      match edit
      case Create(entry) =>
        if i < |entries| then Refused(AlreadyExists)
        else Done(entries + [Mapping(WithoutNulls(entry.fields))])
      case Update(entry) =>
        if i == |entries| then Refused(NotFound)
        else Done(entries[i := Mapping(Merged(entries[i].fields, entry.fields))])
      case Remove(_) => if i == |entries| then Refused(NotFound) else Done(entries[..i] + entries[i + 1..])
      case Select(_) =>
        if i == |entries| then Refused(NotFound) else Done([entries[i]] + (entries[..i] + entries[i + 1..]))
  }

  // ── the list as a map from ids, and an order ───────────────────────────────────────────────

  ghost predicate Distinct(entries: seq<Value>) {
    forall i, j :: 0 <= i < j < |entries| && IdOf(entries[i]).Some? ==> IdOf(entries[i]) != IdOf(entries[j])
  }

  function Lookup(entries: seq<Value>, id: string): Option<map<Value, Value>> {
    var i := First(entries, id);
    if i < |entries| then Some(entries[i].fields) else None
  }

  /** What an edit does to a map from ids to entries. */
  function Meant(edit: Edit, entry: Option<map<Value, Value>>): Option<map<Value, Value>> {
    match edit
    case Create(e) => if e.Mapping? then Some(WithoutNulls(e.fields)) else None
    case Update(e) => if e.Mapping? && entry.Some? then Some(Merged(entry.value, e.fields)) else None
    case Remove(_) => None
    case Select(_) => entry
  }

  lemma FirstIs(entries: seq<Value>, id: string, i: nat)
    requires i < |entries| && IdOf(entries[i]) == Some(id)
    requires forall k :: 0 <= k < i ==> IdOf(entries[k]) != Some(id)
    ensures First(entries, id) == i
  {
  }

  lemma FirstIsNone(entries: seq<Value>, id: string)
    requires forall k :: 0 <= k < |entries| ==> IdOf(entries[k]) != Some(id)
    ensures First(entries, id) == |entries|
  {
  }

  /** The entry an edit leaves keeps its id. */
  lemma EditKeepsId(fields: map<Value, Value>, patch: map<Value, Value>)
    ensures IdOf(Mapping(Merged(fields, patch))) == IdOf(Mapping(fields))
    ensures IdOf(Mapping(WithoutNulls(patch))) == IdOf(Mapping(patch))
  {
  }

  /** Distinct ids are found wherever they stand. */
  lemma LookupAt(entries: seq<Value>, i: nat, id: string)
    requires Distinct(entries) && i < |entries| && IdOf(entries[i]) == Some(id)
    ensures First(entries, id) == i && Lookup(entries, id) == Some(entries[i].fields)
  {
    FirstIs(entries, id, i);
  }

  /** Where the edited list's entry `k` comes from, when it is not the target's. */
  function Origin(edit: Edit, i: nat, k: nat): int {
    match edit
    case Create(_) => k
    case Update(_) => k
    case Remove(_) => if k < i then k else k + 1
    case Select(_) => if k <= i then k - 1 else k
  }

  lemma UpdateKeepsDistinct(entries: seq<Value>, i: nat, entry: Value)
    requires Distinct(entries) && i < |entries| && IdOf(entry) == IdOf(entries[i])
    ensures Distinct(entries[i := entry])
  {
  }

  lemma MoveKeepsDistinct(entries: seq<Value>, i: nat)
    requires Distinct(entries) && i < |entries|
    ensures Distinct(entries[..i] + entries[i + 1..])
    ensures Distinct([entries[i]] + (entries[..i] + entries[i + 1..]))
  {
    var others := entries[..i] + entries[i + 1..];
    assert forall k :: 0 <= k < |others| ==> others[k] == entries[if k < i then k else k + 1];
  }

  /** An edit keeps ids distinct. */
  lemma EditKeepsDistinct(entries: seq<Value>, edit: Edit)
    requires Distinct(entries) && Apply(entries, edit).Done?
    ensures Distinct(Apply(entries, edit).entries)
  {
    var i := First(entries, edit.Target().value);
    match edit
    case Create(entry) => EditKeepsId(map[], entry.fields);
    case Update(entry) =>
      EditKeepsId(entries[i].fields, entry.fields);
      UpdateKeepsDistinct(entries, i, Mapping(Merged(entries[i].fields, entry.fields)));
    case Remove(_) => MoveKeepsDistinct(entries, i);
    case Select(_) => MoveKeepsDistinct(entries, i);
  }

  /** An edit does to its target what the map calls for. */
  lemma EditMeans(entries: seq<Value>, edit: Edit)
    requires Distinct(entries) && Apply(entries, edit).Done?
    ensures var id := edit.Target().value;
            Lookup(Apply(entries, edit).entries, id) == Meant(edit, Lookup(entries, id))
  {
    var id := edit.Target().value;
    var entries' := Apply(entries, edit).entries;
    var i := First(entries, id);
    EditKeepsDistinct(entries, edit);
    match edit
    case Create(entry) =>
      EditKeepsId(map[], entry.fields);
      LookupAt(entries', |entries|, id);
    case Update(entry) =>
      EditKeepsId(entries[i].fields, entry.fields);
      LookupAt(entries', i, id);
    case Remove(_) =>
      assert forall k :: 0 <= k < |entries'| ==> entries'[k] == entries[Origin(edit, i, k)];
      FirstIsNone(entries', id);
    case Select(_) => LookupAt(entries', 0, id);
  }

  /** The entries of no id in `ids`, in order. */
  function Outside(entries: seq<Value>, ids: set<string>): seq<Value> {
    if entries == [] then [] else Unless(entries[0], ids) + Outside(entries[1..], ids)
  }

  function Unless(entry: Value, ids: set<string>): seq<Value> {
    if IdOf(entry).Some? && IdOf(entry).value in ids then [] else [entry]
  }

  lemma Regroup(a: seq<Value>, b: seq<Value>, c: seq<Value>)
    ensures a + (b + c) == (a + b) + c
  {
  }

  lemma {:induction false} OutsideParts(a: seq<Value>, b: seq<Value>, ids: set<string>)
    ensures Outside(a + b, ids) == Outside(a, ids) + Outside(b, ids)
  {
    if a == [] {
      assert a + b == b;
    } else {
      assert (a + b)[0] == a[0] && (a + b)[1..] == a[1..] + b;
      OutsideParts(a[1..], b, ids);
      Regroup(Unless(a[0], ids), Outside(a[1..], ids), Outside(b, ids));
    }
  }

  /** An entry of a named id is passed over. */
  lemma OutsideSkips(entries: seq<Value>, i: nat, ids: set<string>)
    requires i < |entries| && Unless(entries[i], ids) == []
    ensures Outside(entries, ids) == Outside(entries[..i], ids) + Outside(entries[i + 1..], ids)
  {
    var head, tail := entries[..i], entries[i..];
    OutsideParts(head, tail, ids);
    OutsideSkipsHead(tail, ids);
    assert entries == head + tail && tail[1..] == entries[i + 1..];
  }

  lemma OutsideSkipsHead(entries: seq<Value>, ids: set<string>)
    requires entries != [] && Unless(entries[0], ids) == []
    ensures Outside(entries, ids) == Outside(entries[1..], ids)
  {
  }

  lemma UpdateKeepsOrder(entries: seq<Value>, i: nat, entry: Value, ids: set<string>)
    requires i < |entries| && Unless(entries[i], ids) == Unless(entry, ids) == []
    ensures Outside(entries[i := entry], ids) == Outside(entries, ids)
  {
    var entries' := entries[i := entry];
    OutsideSkips(entries, i, ids);
    OutsideSkips(entries', i, ids);
    assert entries'[..i] == entries[..i] && entries'[i + 1..] == entries[i + 1..];
  }

  lemma MoveKeepsOrder(entries: seq<Value>, i: nat, ids: set<string>)
    requires i < |entries| && Unless(entries[i], ids) == []
    ensures Outside(entries[..i] + entries[i + 1..], ids) == Outside(entries, ids)
    ensures Outside([entries[i]] + (entries[..i] + entries[i + 1..]), ids) == Outside(entries, ids)
  {
    var others := entries[..i] + entries[i + 1..];
    OutsideSkips(entries, i, ids);
    OutsideParts(entries[..i], entries[i + 1..], ids);
    assert ([entries[i]] + others)[1..] == others;
  }

  /** The order of the other entries, and the entries themselves, survive an edit. */
  lemma EditKeepsOrder(entries: seq<Value>, edit: Edit, ids: set<string>)
    requires Apply(entries, edit).Done? && edit.Target().value in ids
    ensures Outside(Apply(entries, edit).entries, ids) == Outside(entries, ids)
  {
    var i := First(entries, edit.Target().value);
    match edit
    case Create(entry) =>
      EditKeepsId(map[], entry.fields);
      OutsideParts(entries, [Mapping(WithoutNulls(entry.fields))], ids);
    case Update(entry) =>
      EditKeepsId(entries[i].fields, entry.fields);
      UpdateKeepsOrder(entries, i, Mapping(Merged(entries[i].fields, entry.fields)), ids);
    case Remove(_) => MoveKeepsOrder(entries, i, ids);
    case Select(_) => MoveKeepsOrder(entries, i, ids);
  }

  /** An id not among them is looked up as well in what is left outside. */
  lemma {:induction false} LookupOutside(entries: seq<Value>, ids: set<string>, id: string)
    requires id !in ids
    ensures Lookup(Outside(entries, ids), id) == Lookup(entries, id)
  {
    if entries != [] {
      var rest := Outside(entries[1..], ids);
      LookupOutside(entries[1..], ids, id);
      assert entries == [entries[0]] + entries[1..];
      LookupFront(entries[0], entries[1..], id);
      LookupFront(entries[0], rest, id);
      assert Outside(entries, ids) == if Unless(entries[0], ids) == [] then rest else [entries[0]] + rest;
    }
  }

  lemma LookupFront(entry: Value, rest: seq<Value>, id: string)
    ensures Lookup([entry] + rest, id) == if IdOf(entry) == Some(id) then Some(entry.fields) else Lookup(rest, id)
  {
    var entries := [entry] + rest;
    assert entries[1..] == rest;
    assert First(entries, id) == if IdOf(entry) == Some(id) then 0 else 1 + First(rest, id);
  }

  /** An edit leaves every other id's entry as it was. */
  lemma EditLeavesOthers(entries: seq<Value>, edit: Edit, id: string)
    requires Apply(entries, edit).Done? && edit.Target() != Some(id)
    ensures Lookup(Apply(entries, edit).entries, id) == Lookup(entries, id)
  {
    var ids := {edit.Target().value};
    EditKeepsOrder(entries, edit, ids);
    LookupOutside(entries, ids, id);
    LookupOutside(Apply(entries, edit).entries, ids, id);
  }

  /** A list with distinct ids is edited as a map from ids to entries is: refused exactly when the
      map would be, and the same map afterwards. */
  lemma EditRefinesMap(entries: seq<Value>, edit: Edit, id: string)
    requires Distinct(entries)
    ensures Apply(entries, edit).Done? <==>
            edit.Target().Some? && (edit.Create? <==> Lookup(entries, edit.Target().value).None?)
    ensures Apply(entries, edit).Done? ==>
              && Distinct(Apply(entries, edit).entries)
              && Lookup(Apply(entries, edit).entries, id)
                 == if edit.Target() == Some(id) then Meant(edit, Lookup(entries, id)) else Lookup(entries, id)
  {
    if Apply(entries, edit).Done? {
      EditKeepsDistinct(entries, edit);
      if edit.Target() == Some(id) {
        EditMeans(entries, edit);
      } else {
        EditLeavesOthers(entries, edit, id);
      }
    }
  }

  /** Where an edit leaves its target: a created entry is last, an updated one stays in place, and a
      selected one is first in a permutation of the list. */
  lemma EditPlaces(entries: seq<Value>, edit: Edit)
    requires Apply(entries, edit).Done?
    ensures var entries' := Apply(entries, edit).entries;
            match edit
            case Create(_) => |entries'| == |entries| + 1 && IdOf(entries'[|entries|]) == edit.Target()
            case Update(_) => First(entries', edit.Target().value) == First(entries, edit.Target().value)
                              && |entries'| == |entries|
            case Remove(id) => |entries'| == |entries| - 1
            case Select(id) =>
              entries' != [] && IdOf(entries'[0]) == Some(id) && multiset(entries') == multiset(entries)
  {
    var i := First(entries, edit.Target().value);
    match edit
    case Create(entry) => EditKeepsId(map[], entry.fields);
    case Update(entry) =>
      EditKeepsId(entries[i].fields, entry.fields);
      FirstIs(Apply(entries, edit).entries, edit.Target().value, i);
    case Remove(_) =>
    case Select(_) => assert entries == entries[..i] + [entries[i]] + entries[i + 1..];
  }

  // ── key by key ─────────────────────────────────────────────────────────────────────────────

  /** A key after a patch: a named key has the patch's value, a null takes it away, any other key, and the
      id, are as before. */
  predicate Patched(before: map<Value, Value>, patch: map<Value, Value>, after: map<Value, Value>, key: Value) {
    if key == ID || key !in patch
    then (key in after <==> key in before) && (key in before ==> after[key] == before[key])
    else if patch[key] == Null then key !in after
    else key in after && after[key] == patch[key]
  }

  /** What an accepted update does to the entry it names, for every key. */
  lemma UpdatePatches(entries: seq<Value>, entry: Value, key: Value)
    requires Apply(entries, Update(entry)).Done?
    ensures var i := First(entries, IdOf(entry).value);
            var entries' := Apply(entries, Update(entry)).entries;
            && i < |entries'| == |entries| && entries'[i].Mapping?
            && Patched(entries[i].fields, entry.fields, entries'[i].fields, key)
            && forall k :: 0 <= k < |entries| && k != i ==> entries'[k] == entries[k]
  {
  }

  /** What an accepted create appends, for every key: the given value, and no key for a null. */
  lemma CreateKeeps(entries: seq<Value>, entry: Value, key: Value)
    requires Apply(entries, Create(entry)).Done?
    ensures var entries' := Apply(entries, Create(entry)).entries;
            && |entries'| == |entries| + 1 && entries'[..|entries|] == entries && entries'[|entries|].Mapping?
            && var created := entries'[|entries|].fields;
            && (key in created <==> key in entry.fields && entry.fields[key] != Null)
            && (key in created ==> created[key] == entry.fields[key])
  {
  }

  // ── undoing an edit ────────────────────────────────────────────────────────────────────────

  /** Removing a created entry restores the list. */
  lemma RemoveUndoesCreate(entries: seq<Value>, entry: Value)
    requires Apply(entries, Create(entry)).Done?
    ensures Apply(Apply(entries, Create(entry)).entries, Remove(IdOf(entry).value)) == Done(entries)
  {
    var entries' := Apply(entries, Create(entry)).entries;
    EditKeepsId(map[], entry.fields);
    FirstIs(entries', IdOf(entry).value, |entries|);
    assert entries'[..|entries|] + entries'[|entries| + 1..] == entries;
  }

  /** The patch that names the same keys with what they held, null where they held nothing. */
  function Reverting(fields: map<Value, Value>, patch: map<Value, Value>): map<Value, Value> {
    map k | k in patch :: if k in fields then fields[k] else Null
  }

  /** An update is undone by naming what was there, exactly when no named key held an explicit null:
      the list cannot say that again. */
  lemma UpdateUndoneIff(fields: map<Value, Value>, patch: map<Value, Value>)
    ensures Merged(Merged(fields, patch), Reverting(fields, patch)) == fields
            <==> forall k :: Named(patch, k) && k in fields ==> fields[k] != Null
  {
    var back := Reverting(fields, patch);
    var restored := Merged(Merged(fields, patch), back);
    if k :| Named(patch, k) && k in fields && fields[k] == Null {
      assert Named(back, k) && k !in restored;
    } else {
      forall k ensures k in restored <==> k in fields {
        assert Named(back, k) <==> Named(patch, k);
      }
    }
  }

  // ── the file ───────────────────────────────────────────────────────────────────────────────

  datatype File = Unparseable | Parsed(document: Value)

  /** How the file system and the renderer treat one rewrite. */
  datatype Luck = Luck(read: bool, rendered: bool, written: bool, renamed: bool)

  /** The list of a document; a missing one, or a value that is no list, counts as empty. */
  function Providers(document: Value): seq<Value> {
    if document.Mapping? && PROVIDERS in document.fields && document.fields[PROVIDERS].Sequence?
    then document.fields[PROVIDERS].items else []
  }

  /** The write chain: the file it leaves and the refusal, if any. `valid` is the runtime's own load of
      the document. */
  function Rewritten(valid: Value -> bool, file: File, edit: Edit, luck: Luck): (File, Option<Refusal>) {
    if edit.Target().None? then (file, Some(Invalid))
    else if !luck.read then (file, Some(Io))
    else if file.Unparseable? || !file.document.Mapping? then (file, Some(Invalid))
    else
      var edited := Apply(Providers(file.document), edit);
      if edited.Refused? then (file, Some(edited.refusal))
      else
        var document := Mapping(file.document.fields[PROVIDERS := Sequence(edited.entries)]);
        if !luck.rendered then (file, Some(Invalid))
        else if !luck.written then (file, Some(Io))
        else if !valid(document) then (file, Some(Invalid))
        else if !luck.renamed then (file, Some(Io))
        else (Parsed(document), None)
  }

  /** A delete is guarded: the id is known, it is not the last, and no agent refers to it. */
  function Deleted(valid: Value -> bool, file: File, id: string, referenced: bool, luck: Luck)
    : (File, Option<Refusal>)
  {
    if file.Unparseable? || !valid(file.document) then (file, Some(Invalid))
    else
      var entries := Providers(file.document);
      if First(entries, id) == |entries| then (file, Some(NotFound))
      else if |entries| <= 1 then (file, Some(LastProvider))
      else if referenced then (file, Some(Referenced))
      else Rewritten(valid, file, Remove(id), luck)
  }

  datatype Step =
    | Upserted(entry: Value, create: bool, luck: Luck)
    | Selected(id: string, luck: Luck)
    | Removed(id: string, referenced: bool, luck: Luck)
  {
    function Edit(): Edit {
      match this
      case Upserted(entry, create, _) => if create then Create(entry) else Update(entry)
      case Selected(id, _) => Select(id)
      case Removed(id, _, _) => Remove(id)
    }
  }

  function Perform(valid: Value -> bool, file: File, step: Step): (File, Option<Refusal>) {
    match step
    case Removed(id, referenced, luck) => Deleted(valid, file, id, referenced, luck)
    case _ => Rewritten(valid, file, step.Edit(), step.luck)
  }

  ghost predicate Behavior(valid: Value -> bool, files: seq<File>, steps: seq<Step>) {
    && |files| == |steps| + 1
    && forall i :: 0 <= i < |steps| ==> files[i + 1] == Perform(valid, files[i], steps[i]).0
  }

  ghost predicate WellFormed(file: File) {
    file.Parsed? && file.document.Mapping? && Providers(file.document) != [] && Distinct(Providers(file.document))
  }

  /** The file after a whole edit: the edited list, in a document the runtime loads, and nothing else. */
  predicate Took(valid: Value -> bool, file: File, edit: Edit, file': File) {
    && file.Parsed? && file.document.Mapping? && file'.Parsed? && file'.document.Mapping?
    && valid(file'.document)
    && Apply(Providers(file.document), edit) == Done(Providers(file'.document))
    && file'.document.fields - {PROVIDERS} == file.document.fields - {PROVIDERS}
  }

  lemma RewriteIsAllOrNothing(valid: Value -> bool, file: File, edit: Edit, luck: Luck)
    ensures var (file', refusal) := Rewritten(valid, file, edit, luck);
            if refusal.Some? then file' == file else Took(valid, file, edit, file')
  {
  }

  /** A step that answers with a refusal changed nothing; one that does not made its whole edit. */
  lemma StepIsAllOrNothing(valid: Value -> bool, file: File, step: Step)
    ensures var (file', refusal) := Perform(valid, file, step);
            if refusal.Some? then file' == file
            else Took(valid, file, step.Edit(), file') && (step.Removed? ==> |Providers(file.document)| > 1)
  {
    RewriteIsAllOrNothing(valid, file, step.Edit(), step.luck);
  }

  /** When a rewrite must succeed: the entry names an id, the document is read and is a mapping, the edit
      applies, and rendering, writing, the runtime's own load and the rename all do. */
  lemma RewriteSucceedsIff(valid: Value -> bool, file: File, edit: Edit, luck: Luck)
    ensures var (file', refusal) := Rewritten(valid, file, edit, luck);
            refusal.None? <==>
              && edit.Target().Some? && luck == Luck(true, true, true, true)
              && file.Parsed? && file.document.Mapping?
              && Apply(Providers(file.document), edit).Done?
              && var entries := Apply(Providers(file.document), edit).entries;
                 valid(Mapping(file.document.fields[PROVIDERS := Sequence(entries)]))
  {
  }

  /** A create works on a document whose list is missing or is no list. */
  lemma CreateMakesTheList(valid: Value -> bool, file: File, entry: Value, luck: Luck)
    requires file.Parsed? && file.document.Mapping? && Rewritten(valid, file, Create(entry), luck).1.None?
    requires PROVIDERS !in file.document.fields || !file.document.fields[PROVIDERS].Sequence?
    ensures var file' := Rewritten(valid, file, Create(entry), luck).0;
            |Providers(file'.document)| == 1 && IdOf(Providers(file'.document)[0]) == IdOf(entry)
  {
    EditKeepsId(map[], entry.fields);
  }

  predicate Has(entries: seq<Value>, id: string) {
    exists k :: 0 <= k < |entries| && IdOf(entries[k]) == Some(id)
  }

  /** The guards of a delete, in their order: what is refused, why, and that nothing refused is touched;
      past them it is the rewrite. */
  lemma DeleteGuards(valid: Value -> bool, file: File, id: string, referenced: bool, luck: Luck)
    ensures var (file', refusal) := Deleted(valid, file, id, referenced, luck);
            if file.Unparseable? || !valid(file.document) then refusal == Some(Invalid) && file' == file
            else if !Has(Providers(file.document), id) then refusal == Some(NotFound) && file' == file
            else if |Providers(file.document)| == 1 then refusal == Some(LastProvider) && file' == file
            else if referenced then refusal == Some(Referenced) && file' == file
            else (file', refusal) == Rewritten(valid, file, Remove(id), luck)
  {
    if file.Parsed? && Has(Providers(file.document), id) {
      assert First(Providers(file.document), id) < |Providers(file.document)|;
    }
  }

  lemma StepKeepsWellFormed(valid: Value -> bool, file: File, step: Step)
    requires WellFormed(file)
    ensures WellFormed(Perform(valid, file, step).0)
  {
    var (file', refusal) := Perform(valid, file, step);
    StepIsAllOrNothing(valid, file, step);
    if refusal.None? {
      EditKeepsDistinct(Providers(file.document), step.Edit());
      EditPlaces(Providers(file.document), step.Edit());
    }
  }

  /** Every run keeps the list non-empty and its ids distinct, whatever is refused or fails. */
  lemma {:induction false} RunKeepsWellFormed(valid: Value -> bool, files: seq<File>, steps: seq<Step>, i: nat)
    requires Behavior(valid, files, steps) && WellFormed(files[0]) && i < |files|
    ensures WellFormed(files[i])
  {
    if i > 0 {
      RunKeepsWellFormed(valid, files, steps, i - 1);
      StepKeepsWellFormed(valid, files[i - 1], steps[i - 1]);
    }
  }

  /** The entries of no id in `ids`, their order, and the rest of the document are the same. */
  ghost predicate RestKept(file: File, file': File, ids: set<string>) {
    && WellFormed(file) && WellFormed(file')
    && Outside(Providers(file'.document), ids) == Outside(Providers(file.document), ids)
    && file'.document.fields - {PROVIDERS} == file.document.fields - {PROVIDERS}
  }

  lemma StepLeavesTheRest(valid: Value -> bool, file: File, step: Step, ids: set<string>)
    requires WellFormed(file) && (step.Edit().Target().Some? ==> step.Edit().Target().value in ids)
    ensures RestKept(file, Perform(valid, file, step).0, ids)
  {
    StepKeepsWellFormed(valid, file, step);
    StepIsAllOrNothing(valid, file, step);
    if Perform(valid, file, step).1.None? {
      EditKeepsOrder(Providers(file.document), step.Edit(), ids);
    }
  }

  lemma {:induction false} RestStaysKept(files: seq<File>, ids: set<string>, i: nat)
    requires i < |files| && WellFormed(files[0]) && forall k: nat | k < i :: RestKept(files[k], files[k + 1], ids)
    ensures RestKept(files[0], files[i], ids)
  {
    if i > 0 {
      RestStaysKept(files, ids, i - 1);
      assert RestKept(files[i - 1], files[i], ids);
    }
  }

  /** Over every run, the entries no step names, their order, and the rest of the document stay. */
  lemma RunLeavesTheRest(valid: Value -> bool, files: seq<File>, steps: seq<Step>, ids: set<string>, i: nat)
    requires Behavior(valid, files, steps) && WellFormed(files[0]) && i < |files|
    requires forall k :: 0 <= k < |steps| && steps[k].Edit().Target().Some? ==> steps[k].Edit().Target().value in ids
    ensures RestKept(files[0], files[i], ids)
  {
    forall k: nat | k < i ensures RestKept(files[k], files[k + 1], ids) {
      RunKeepsWellFormed(valid, files, steps, k);
      StepLeavesTheRest(valid, files[k], steps[k], ids);
    }
    RestStaysKept(files, ids, i);
  }

  /** What a step means for one id: an accepted edit that names it counts. */
  function MeantBy(valid: Value -> bool, file: File, step: Step, id: string, entry: Option<map<Value, Value>>)
    : Option<map<Value, Value>>
  {
    if Perform(valid, file, step).1.None? && step.Edit().Target() == Some(id) then Meant(step.Edit(), entry) else entry
  }

  function Held(file: File, id: string): Option<map<Value, Value>> {
    if file.Parsed? then Lookup(Providers(file.document), id) else None
  }

  lemma StepMeans(valid: Value -> bool, file: File, step: Step, id: string)
    requires WellFormed(file)
    ensures Held(Perform(valid, file, step).0, id) == MeantBy(valid, file, step, id, Held(file, id))
  {
    StepIsAllOrNothing(valid, file, step);
    if Perform(valid, file, step).1.None? {
      EditRefinesMap(Providers(file.document), step.Edit(), id);
    }
  }

  /** The accepted edits that named the id, folded over what the first file held. */
  function Folded(valid: Value -> bool, files: seq<File>, steps: seq<Step>, id: string, i: nat)
    : Option<map<Value, Value>>
    requires |files| == |steps| + 1 && i < |files|
  {
    if i == 0 then Held(files[0], id)
    else MeantBy(valid, files[i - 1], steps[i - 1], id, Folded(valid, files, steps, id, i - 1))
  }

  /** Step `k` of the run means for the id what its edit does. */
  predicate Means(valid: Value -> bool, files: seq<File>, steps: seq<Step>, id: string, k: nat)
    requires |files| == |steps| + 1 && k < |steps|
  {
    Held(files[k + 1], id) == MeantBy(valid, files[k], steps[k], id, Held(files[k], id))
  }

  lemma RunStepMeans(valid: Value -> bool, files: seq<File>, steps: seq<Step>, id: string, k: nat)
    requires Behavior(valid, files, steps) && WellFormed(files[0]) && k < |steps|
    ensures Means(valid, files, steps, id, k)
  {
    RunKeepsWellFormed(valid, files, steps, k);
    StepMeans(valid, files[k], steps[k], id);
  }

  lemma {:induction false} FoldMeans(valid: Value -> bool, files: seq<File>, steps: seq<Step>, id: string, i: nat)
    requires |files| == |steps| + 1 && i < |files|
    requires forall k: nat | k < i :: Means(valid, files, steps, id, k)
    ensures Held(files[i], id) == Folded(valid, files, steps, id, i)
  {
    if i > 0 {
      FoldMeans(valid, files, steps, id, i - 1);
      assert Means(valid, files, steps, id, i - 1);
    }
  }

  /** At every point of a run an id's entry is the fold of the accepted edits that named it. */
  lemma RunIsFold(valid: Value -> bool, files: seq<File>, steps: seq<Step>, id: string, i: nat)
    requires Behavior(valid, files, steps) && WellFormed(files[0]) && i < |files|
    ensures Held(files[i], id) == Folded(valid, files, steps, id, i)
  {
    forall k: nat | k < i ensures Means(valid, files, steps, id, k) {
      RunStepMeans(valid, files, steps, id, k);
    }
    FoldMeans(valid, files, steps, id, i);
  }
}
