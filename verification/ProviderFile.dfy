/**
 The provider list and the configuration file as they are changed in place: each method is proved
 against the edit or the write chain of `ProviderDocument`.
 */
module ProviderFile {
  import opened Basics
  import opened ProviderDocument

  /** The position of the first entry of that id. */
  method Position(entries: seq<Value>, id: string) returns (found: Option<nat>)
    ensures found == if First(entries, id) < |entries| then Some(First(entries, id)) else None
  {
    for i := 0 to |entries|
      invariant forall k :: 0 <= k < i ==> IdOf(entries[k]) != Some(id)
    {
      if IdOf(entries[i]) == Some(id) {
        FirstIs(entries, id, i);
        return Some(i);
      }
    }
    FirstIsNone(entries, id);
    return None;
  }

  /** The fields of a created entry: the nulls are dropped. */
  method DropNulls(mapping: map<Value, Value>) returns (fields: map<Value, Value>)
    ensures fields == WithoutNulls(mapping)
    ensures forall key :: key in fields <==> key in mapping && mapping[key] != Null
    ensures forall key :: key in fields ==> fields[key] == mapping[key]
  {
    fields := map[];
    var rest := mapping.Keys;
    while rest != {}
      invariant rest <= mapping.Keys
      invariant forall k :: k in fields <==> k in mapping && k !in rest && mapping[k] != Null
      invariant forall k :: k in fields ==> fields[k] == mapping[k]
    {
      var key :| key in rest;
      rest := rest - {key};
      if mapping[key] != Null {
        fields := fields[key := mapping[key]];
      }
    }
  }

  /** The patch's pairs one by one, in any order, over a stored entry. */
  method Patch(fields: map<Value, Value>, mapping: map<Value, Value>) returns (target: map<Value, Value>)
    ensures target == Merged(fields, mapping)
    ensures forall key :: Patched(fields, mapping, target, key)
  {
    target := fields;
    var rest := mapping.Keys;
    while rest != {}
      invariant rest <= mapping.Keys
      invariant forall k :: k in rest || !Named(mapping, k) ==>
                  (k in target <==> k in fields) && (k in fields ==> target[k] == fields[k])
      invariant forall k :: k !in rest && Named(mapping, k) ==>
                  (k in target <==> mapping[k] != Null) && (k in target ==> target[k] == mapping[k])
    {
      var key :| key in rest;
      rest := rest - {key};
      if key == ID {
        continue;
      }
      if mapping[key] == Null {
        target := target - {key};
      } else {
        target := target[key := mapping[key]];
      }
    }
  }

  class ProviderList {
    var entries: seq<Value>

    constructor (entries: seq<Value>)
      ensures this.entries == entries
    {
      this.entries := entries;
    }

    /** An upsert of the entry `id` names; the index it leaves the entry at. */
    method ApplyUpsert(id: string, mapping: map<Value, Value>, create: bool)
      returns (index: nat, refusal: Option<Refusal>)
      requires IdOf(Mapping(mapping)) == Some(id)
      modifies this
      ensures var edit := if create then Create(Mapping(mapping)) else Update(Mapping(mapping));
              match Apply(old(entries), edit)
              case Done(entries') =>
                entries == entries' && refusal.None? && index < |entries| && IdOf(entries[index]) == Some(id)
              case Refused(why) => entries == old(entries) && refusal == Some(why)
    {
      var existing := Position(entries, id);
      index, refusal := 0, None;
      if create {
        if existing.Some? {
          refusal := Some(AlreadyExists);
          return;
        }
        var fields := DropNulls(mapping);
        entries := entries + [Mapping(fields)];
        index := |entries| - 1;
        EditKeepsId(map[], mapping);
      } else {
        if existing.None? {
          refusal := Some(NotFound);
          return;
        }
        index := existing.value;
        var target := Patch(entries[index].fields, mapping);
        EditKeepsId(entries[index].fields, mapping);
        entries := entries[index := Mapping(target)];
      }
    }

    method RemoveEntry(id: string) returns (refusal: Option<Refusal>)
      modifies this
      ensures match Apply(old(entries), Remove(id))
              case Done(entries') => entries == entries' && refusal.None?
              case Refused(why) => entries == old(entries) && refusal == Some(why)
    {
      var found := Position(entries, id);
      if found.None? {
        return Some(NotFound);
      }
      entries := entries[..found.value] + entries[found.value + 1..];
      return None;
    }

    /** The entry is taken out and put back at the front. */
    method SelectEntry(id: string) returns (refusal: Option<Refusal>)
      modifies this
      ensures match Apply(old(entries), Select(id))
              case Done(entries') => entries == entries' && refusal.None?
              case Refused(why) => entries == old(entries) && refusal == Some(why)
    {
      var found := Position(entries, id);
      if found.None? {
        return Some(NotFound);
      }
      var entry := entries[found.value];
      entries := entries[..found.value] + entries[found.value + 1..];
      entries := [entry] + entries;
      return None;
    }
  }

  class RuntimeConfig {
    var file: File

    constructor (file: File)
      ensures this.file == file
    {
      this.file := file;
    }

    /** The edit of the list as one call. */
    method EditList(list: ProviderList, edit: Edit) returns (refusal: Option<Refusal>)
      requires edit.Target().Some?
      modifies list
      ensures match Apply(old(list.entries), edit)
              case Done(entries') => list.entries == entries' && refusal.None?
              case Refused(why) => list.entries == old(list.entries) && refusal == Some(why)
    {
      match edit
      case Create(entry) =>
        var _, why := list.ApplyUpsert(edit.Target().value, entry.fields, true);
        refusal := why;
      case Update(entry) =>
        var _, why := list.ApplyUpsert(edit.Target().value, entry.fields, false);
        refusal := why;
      case Remove(id) => refusal := list.RemoveEntry(id);
      case Select(id) => refusal := list.SelectEntry(id);
    }

    /** The one write chain: read, edit, render, write beside, validate, rename. */
    method Rewrite(valid: Value -> bool, edit: Edit, luck: Luck) returns (refusal: Option<Refusal>)
      modifies this
      ensures (file, refusal) == Rewritten(valid, old(file), edit, luck)
    {
      if edit.Target().None? {
        return Some(Invalid);
      }
      if !luck.read {
        return Some(Io);
      }
      if file.Unparseable? || !file.document.Mapping? {
        return Some(Invalid);
      }
      var list := new ProviderList(Providers(file.document));
      refusal := EditList(list, edit);
      if refusal.Some? {
        return;
      }
      var beside := Mapping(file.document.fields[PROVIDERS := Sequence(list.entries)]);
      if !luck.rendered {
        return Some(Invalid);
      }
      if !luck.written {
        return Some(Io);
      }
      if !valid(beside) {
        return Some(Invalid);
      }
      if !luck.renamed {
        return Some(Io);
      }
      file := Parsed(beside);
    }

    method DeleteProvider(valid: Value -> bool, id: string, referenced: bool, luck: Luck)
      returns (refusal: Option<Refusal>)
      modifies this
      ensures (file, refusal) == Deleted(valid, old(file), id, referenced, luck)
    {
      if file.Unparseable? || !valid(file.document) {
        return Some(Invalid);
      }
      var entries := Providers(file.document);
      var found := Position(entries, id);
      if found.None? {
        return Some(NotFound);
      }
      if |entries| <= 1 {
        return Some(LastProvider);
      }
      if referenced {
        return Some(Referenced);
      }
      refusal := Rewrite(valid, Remove(id), luck);
    }

    /** Any step: the file stays well formed, and is untouched when the step is refused. */
    method PerformStep(valid: Value -> bool, step: Step) returns (refusal: Option<Refusal>)
      modifies this
      ensures (file, refusal) == Perform(valid, old(file), step)
      ensures old(WellFormed(file)) ==> WellFormed(file)
      ensures refusal.Some? ==> file == old(file)
    {
      ghost var was := file;
      match step {
        case Removed(id, referenced, luck) => refusal := DeleteProvider(valid, id, referenced, luck);
        case _ => refusal := Rewrite(valid, step.Edit(), step.luck);
      }
      StepIsAllOrNothing(valid, was, step);
      if WellFormed(was) {
        StepKeepsWellFormed(valid, was, step);
      }
    }
  }
}
