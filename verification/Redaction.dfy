/**
  The last pass over a log record before it is rendered. Values under sensitive field names and
  containers past the depth limit are replaced, and nothing else is.

  A record is a tree of dicts and lists; any other value, tuples included, is a leaf. A dict is its
  entries in order, and writing a key that is there already replaces the value where it stands, so
  two keys that read the same as text end up as one entry with the later value.
*/
module Redaction {
  import opened Options

  const REDACTED := "[redacted]"
  const MAX_DEPTH := 6
  const MARKERS := [
    "authorization", "cookie", "credential", "passphrase", "password", "passwd", "private_key",
    "secret", "seed", "token", "api_key", "master_key", "signing_key"]

  /** A dict key: a string, or something else that has a text form. */
  datatype Key = Text(text: string) | Other(shown: string, identity: int)

  datatype Value = Leaf(data: string) | Dict(entries: seq<Entry>) | List(items: seq<Value>)

  datatype Entry = Entry(key: Key, value: Value)

  function Str(k: Key): string { if k.Text? then k.text else k.shown }

  // ---------------------------------------------------------------- field names

  function Lower(c: char): char { if 'A' <= c <= 'Z' then ((c as int) + 32) as char else c }

  function Lowered(s: string): (r: string)
    ensures |r| == |s| && forall i :: 0 <= i < |s| ==> r[i] == Lower(s[i])
  {
    if s == "" then "" else [Lower(s[0])] + Lowered(s[1..])
  }

  /** Python's `marker in s`. */
  predicate Contains(s: string, marker: string) {
    exists i :: 0 <= i <= |s| - |marker| && MatchesAt(s, marker, i)
  }

  predicate MatchesAt(s: string, marker: string, i: nat)
    requires i + |marker| <= |s|
  {
    s[i..i + |marker|] == marker
  }

  predicate ContainsAny(s: string, markers: seq<string>) {
    markers != [] && (Contains(s, markers[0]) || ContainsAny(s, markers[1..]))
  }

  predicate IsSensitive(field: string) { ContainsAny(Lowered(field), MARKERS) }

  lemma ContainsMore(s: string, t: string, marker: string, offset: nat)
    requires Contains(s, marker) && offset + |s| <= |t|
    requires forall k :: 0 <= k < |s| ==> t[offset + k] == s[k]
    ensures Contains(t, marker)
  {
    var i :| 0 <= i <= |s| - |marker| && MatchesAt(s, marker, i);
    forall k | 0 <= k < |marker| ensures t[offset + i + k] == marker[k] {
      assert s[i..i + |marker|][k] == marker[k];
    }
    assert MatchesAt(t, marker, offset + i);
  }

  lemma {:induction false} ContainsAnyMore(s: string, t: string, markers: seq<string>, offset: nat)
    requires ContainsAny(s, markers) && offset + |s| <= |t|
    requires forall k :: 0 <= k < |s| ==> t[offset + k] == s[k]
    ensures ContainsAny(t, markers)
    decreases |markers|
  {
    if Contains(s, markers[0]) {
      ContainsMore(s, t, markers[0], offset);
    } else {
      ContainsAnyMore(s, t, markers[1..], offset);
    }
  }

  /** Whatever a sensitive name is built into is sensitive too, in any case: no list of compounds is needed. */
  lemma CompoundsAreSensitive(prefix: string, field: string, suffix: string, spelling: string)
    requires IsSensitive(field) && Lowered(spelling) == Lowered(field)
    ensures IsSensitive(prefix + spelling + suffix)
  {
    var whole := prefix + spelling + suffix;
    forall k | 0 <= k < |field| ensures Lowered(whole)[|prefix| + k] == Lowered(field)[k] {
      assert whole[|prefix| + k] == spelling[k];
      assert Lowered(spelling)[k] == Lower(spelling[k]);
    }
    ContainsAnyMore(Lowered(field), Lowered(whole), MARKERS, |prefix|);
  }

  lemma {:induction false} ContainsAnyIff(s: string, markers: seq<string>)
    ensures ContainsAny(s, markers) <==> exists m :: m in markers && Contains(s, m)
    decreases |markers|
  {
    if markers == [] {
    } else {
      ContainsAnyIff(s, markers[1..]);
      assert forall m :: m in markers <==> m == markers[0] || m in markers[1..];
    }
  }

  /** A name is sensitive exactly when one of these thirteen is somewhere in it, in any ASCII case. */
  lemma SensitiveIff(field: string)
    ensures IsSensitive(field) <==>
              exists m ::
                && m in ["authorization", "cookie", "credential", "passphrase", "password", "passwd", "private_key",
                         "secret", "seed", "token", "api_key", "master_key", "signing_key"]
                && Contains(Lowered(field), m)
  {
    ContainsAnyIff(Lowered(field), MARKERS);
  }

  // ---------------------------------------------------------------- redaction

  /** The position of a text key, or the length when it is not there. */
  function Find(es: seq<Entry>, k: string): (i: nat)
    ensures i <= |es| && (i < |es| ==> es[i].key == Text(k))
    ensures forall j :: 0 <= j < i ==> es[j].key != Text(k)
  {
    if es == [] then 0 else if es[0].key == Text(k) then 0 else 1 + Find(es[1..], k)
  }

  /** Assigning into a dict under construction. */
  function Put(es: seq<Entry>, k: string, v: Value): seq<Entry> {
    var i := Find(es, k);
    if i < |es| then es[i := Entry(Text(k), v)] else es + [Entry(Text(k), v)]
  }

  /** Which field names are sensitive. What is proved below holds of any rule; the service's is `IsSensitive`. */
  type Rule = string -> bool

  function RedactValue(rule: Rule, k: string, v: Value, depth: nat): Value
    decreases v, 1
  {
    if rule(k) then Leaf(REDACTED) else RedactContainer(rule, v, depth)
  }

  function RedactContainer(rule: Rule, v: Value, depth: nat): Value
    decreases v, 0
  {
    if v.Leaf? then v
    else if depth >= MAX_DEPTH then Leaf(REDACTED)
    else if v.Dict? then Dict(RedactEntries(rule, v.entries, depth + 1))
    else List(RedactItems(rule, v.items, depth + 1))
  }

  function RedactEntry(rule: Rule, e: Entry, depth: nat): Value
    decreases e
  {
    RedactValue(rule, Str(e.key), e.value, depth)
  }

  function RedactEntries(rule: Rule, es: seq<Entry>, depth: nat): seq<Entry>
    decreases es
  {
    if es == [] then []
    else
      var last := es[|es| - 1];
      Put(RedactEntries(rule, es[..|es| - 1], depth), Str(last.key), RedactEntry(rule, last, depth))
  }

  function RedactItems(rule: Rule, vs: seq<Value>, depth: nat): (r: seq<Value>)
    ensures |r| == |vs| && forall i :: 0 <= i < |vs| ==> r[i] == RedactContainer(rule, vs[i], depth)
    decreases vs
  {
    if vs == [] then [] else RedactItems(rule, vs[..|vs| - 1], depth) + [RedactContainer(rule, vs[|vs| - 1], depth)]
  }

  /** The pass itself. A record's own fields have string keys, and sit at depth 0. */
  function RedactRecord(rule: Rule, record: seq<Entry>): seq<Entry> { RedactEntries(rule, record, 0) }

  function RedactSecrets(record: seq<Entry>): seq<Entry> { RedactRecord(IsSensitive, record) }

  // ---------------------------------------------------------------- looking into a record

  datatype Step = Field(name: string) | Item(index: nat)

  /** What a dict holds under a text form: the last of its keys that reads so. */
  function Lookup(es: seq<Entry>, k: string): Option<Value> {
    if es == [] then None
    else if Str(es[|es| - 1].key) == k then Some(es[|es| - 1].value)
    else Lookup(es[..|es| - 1], k)
  }

  function At(v: Value, path: seq<Step>): Option<Value>
    decreases |path|
  {
    if path == [] then Some(v)
    else if path[0].Field? && v.Dict? then
      var found := Lookup(v.entries, path[0].name);
      if found.None? then None else At(found.value, path[1..])
    else if path[0].Item? && v.List? && path[0].index < |v.items| then At(v.items[path[0].index], path[1..])
    else None
  }

  /** No field on the way is sensitive. */
  predicate Open(rule: Rule, path: seq<Step>)
    decreases |path|
  {
    path == [] || ((path[0].Field? ==> !rule(path[0].name)) && Open(rule, path[1..]))
  }

  // ---------------------------------------------------------------- the dict under construction

  predicate Distinct(es: seq<Entry>) {
    && (forall i :: 0 <= i < |es| ==> es[i].key.Text?)
    && (forall i, j :: 0 <= i < j < |es| ==> es[i].key != es[j].key)
  }

  lemma {:induction false} LookupIs(es: seq<Entry>, k: string)
    requires Distinct(es)
    ensures Lookup(es, k) == if Find(es, k) < |es| then Some(es[Find(es, k)].value) else None
  {
    if es == [] {
    } else {
      var init := es[..|es| - 1];
      LookupIs(init, k);
      var i := Find(es, k);
      if i < |es| {
        assert es[i].key == Text(k);
        if i < |es| - 1 {
          assert es[|es| - 1].key != es[i].key;
          assert init[i].key == Text(k);
        }
      } else {
        assert es[|es| - 1].key != Text(k);
      }
      assert Find(init, k) < |init| ==> init[Find(init, k)] == es[Find(init, k)];
    }
  }

  lemma PutIs(es: seq<Entry>, k: string, v: Value)
    requires Distinct(es)
    ensures Distinct(Put(es, k, v))
    ensures forall k' :: Lookup(Put(es, k, v), k') == if k' == k then Some(v) else Lookup(es, k')
  {
    var r := Put(es, k, v);
    var p := Find(es, k);
    assert forall i :: 0 <= i < |es| ==> r[i].key == es[i].key;
    forall k' ensures Lookup(r, k') == if k' == k then Some(v) else Lookup(es, k') {
      LookupIs(es, k');
      LookupIs(r, k');
      var i, j := Find(r, k'), Find(es, k');
      if j < |es| {
        assert r[j].key == Text(k');
        assert i == j;
      } else if k' == k {
        assert r[|es|].key == Text(k) && i == |es|;
      } else {
        assert i == |r|;
      }
    }
  }

  /** Redacting commutes with looking a field up. */
  lemma {:induction false} RedactLookup(rule: Rule, es: seq<Entry>, depth: nat, k: string)
    ensures Distinct(RedactEntries(rule, es, depth))
    ensures Lookup(RedactEntries(rule, es, depth), k) ==
      match Lookup(es, k)
      case None => None
      case Some(v) => Some(RedactValue(rule, k, v, depth))
    decreases |es|
  {
    if es == [] {
    } else {
      var init, last := es[..|es| - 1], es[|es| - 1];
      RedactLookup(rule, init, depth, k);
      PutIs(RedactEntries(rule, init, depth), Str(last.key), RedactEntry(rule, last, depth));
    }
  }

  // ---------------------------------------------------------------- what survives

  lemma FieldOfRedacted(rule: Rule, es: seq<Entry>, depth: nat, path: seq<Step>)
    requires path != [] && path[0].Field?
    ensures At(Dict(RedactEntries(rule, es, depth)), path) ==
      var found := Lookup(es, path[0].name);
      if found.None? then None else At(RedactValue(rule, path[0].name, found.value, depth), path[1..])
  {
    RedactLookup(rule, es, depth, path[0].name);
  }

  /**
    A leaf, other than the replacement itself, stands in the redacted value exactly where it stood
    before, exactly when no field on the way is sensitive and no container on the way is too deep.
  */
  lemma {:induction false} LeafSurvivesIff(rule: Rule, v: Value, path: seq<Step>, depth: nat, data: string)
    requires data != REDACTED
    ensures At(RedactContainer(rule, v, depth), path) == Some(Leaf(data))
      <==> At(v, path) == Some(Leaf(data)) && Open(rule, path) && (path == [] || depth + |path| <= MAX_DEPTH)
    decreases |path|, 0
  {
    if path == [] {
    } else {
      if depth >= MAX_DEPTH || v.Leaf? {
      } else if v.Dict? && path[0].Field? {
        FieldSurvivesIff(rule, v.entries, path, depth + 1, data);
      } else if v.List? && path[0].Item? && path[0].index < |v.items| {
        LeafSurvivesIff(rule, v.items[path[0].index], path[1..], depth + 1, data);
      }
    }
  }

  lemma {:induction false} FieldSurvivesIff(rule: Rule, es: seq<Entry>, path: seq<Step>, depth: nat, data: string)
    requires data != REDACTED && path != [] && path[0].Field?
    ensures At(Dict(RedactEntries(rule, es, depth)), path) == Some(Leaf(data))
      <==>
      && At(Dict(es), path) == Some(Leaf(data)) && Open(rule, path)
      && (|path| == 1 || depth + |path| - 1 <= MAX_DEPTH)
    decreases |path| - 1, 1
  {
    FieldOfRedacted(rule, es, depth, path);
    var found := Lookup(es, path[0].name);
    if found.Some? {
      LeafSurvivesIff(rule, found.value, path[1..], depth, data);
    }
  }

  /**
    A leaf stands in `after` at the end of a path exactly when it stood there in `before`, under no
    sensitive field and within the depth limit. A record's own fields sit one level above the
    containers inside them.
  */
  predicate KeepsExactly(rule: Rule, before: seq<Entry>, after: seq<Entry>, path: seq<Step>, data: string) {
    At(Dict(after), path) == Some(Leaf(data))
    <==> At(Dict(before), path) == Some(Leaf(data)) && Open(rule, path) && |path| <= 7
  }

  lemma RecordSurvivesIff(rule: Rule, record: seq<Entry>, path: seq<Step>, data: string)
    requires data != REDACTED && path != []
    ensures KeepsExactly(rule, record, RedactRecord(rule, record), path, data)
  {
    if path[0].Field? {
      FieldSurvivesIff(rule, record, path, 0, data);
    }
  }

  /** The service's own pass keeps exactly the leaves it should. */
  lemma RecordLeafSurvivesIff(record: seq<Entry>, path: seq<Step>, data: string)
    requires data != REDACTED && path != []
    ensures KeepsExactly(IsSensitive, record, RedactSecrets(record), path, data)
  {
    RecordSurvivesIff(IsSensitive, record, path, data);
  }

  // ---------------------------------------------------------------- what does not matter

  /** Two values that differ only under sensitive fields or past the depth limit. */
  predicate Alike(rule: Rule, a: Value, b: Value, depth: nat)
    decreases a
  {
    if a.Leaf? || b.Leaf? then a == b
    else if depth >= MAX_DEPTH then true
    else match a
      case Dict(es) => b.Dict? && AlikeEntries(rule, es, b.entries, depth + 1)
      case List(vs) =>
        b.List? && |vs| == |b.items| && forall i :: 0 <= i < |vs| ==> Alike(rule, vs[i], b.items[i], depth + 1)
  }

  predicate AlikeEntries(rule: Rule, a: seq<Entry>, b: seq<Entry>, depth: nat)
    decreases a
  {
    && |a| == |b|
    && forall i :: 0 <= i < |a| ==> AlikeEntry(rule, a[i], b[i], depth)
  }

  predicate AlikeEntry(rule: Rule, a: Entry, b: Entry, depth: nat)
    decreases a
  {
    Str(a.key) == Str(b.key) && (rule(Str(a.key)) || Alike(rule, a.value, b.value, depth))
  }

  lemma {:induction false} AlikeRedactAlike(rule: Rule, a: Value, b: Value, depth: nat)
    requires Alike(rule, a, b, depth)
    ensures RedactContainer(rule, a, depth) == RedactContainer(rule, b, depth)
    decreases a
  {
    if a.Dict? && depth < MAX_DEPTH {
      AlikeEntriesRedactAlike(rule, a.entries, b.entries, depth + 1);
    } else if a.List? && depth < MAX_DEPTH {
      var ra, rb := RedactItems(rule, a.items, depth + 1), RedactItems(rule, b.items, depth + 1);
      forall i | 0 <= i < |ra| ensures ra[i] == rb[i] {
        AlikeRedactAlike(rule, a.items[i], b.items[i], depth + 1);
      }
      assert ra == rb;
    }
  }

  /** Non-interference: nothing under a sensitive field or past the depth limit shows in the result. */
  lemma {:induction false} AlikeEntriesRedactAlike(rule: Rule, a: seq<Entry>, b: seq<Entry>, depth: nat)
    requires AlikeEntries(rule, a, b, depth)
    ensures RedactEntries(rule, a, depth) == RedactEntries(rule, b, depth)
    decreases a
  {
    if a == [] {
    } else {
      var n := |a| - 1;
      AlikeEntriesRedactAlike(rule, a[..n], b[..n], depth);
      AlikeEntryRedactAlike(rule, a[n], b[n], depth);
    }
  }

  lemma {:induction false} AlikeEntryRedactAlike(rule: Rule, a: Entry, b: Entry, depth: nat)
    requires AlikeEntry(rule, a, b, depth)
    ensures RedactEntry(rule, a, depth) == RedactEntry(rule, b, depth)
    decreases a
  {
    if !rule(Str(a.key)) {
      AlikeRedactAlike(rule, a.value, b.value, depth);
    }
  }

  // ---------------------------------------------------------------- twice is once

  predicate Settled(rule: Rule, es: seq<Entry>, depth: nat) {
    Distinct(es) && forall i :: 0 <= i < |es| ==> RedactValue(rule, es[i].key.text, es[i].value, depth) == es[i].value
  }

  lemma PutNew(es: seq<Entry>, k: string, v: Value)
    requires forall j :: 0 <= j < |es| ==> es[j].key != Text(k)
    ensures Put(es, k, v) == es + [Entry(Text(k), v)]
  {
  }

  lemma {:induction false} SettledStays(rule: Rule, es: seq<Entry>, depth: nat)
    requires Settled(rule, es, depth)
    ensures RedactEntries(rule, es, depth) == es
    decreases |es|
  {
    if es == [] {
    } else {
      var n := |es| - 1;
      SettledStays(rule, es[..n], depth);
      PutNew(es[..n], es[n].key.text, es[n].value);
      assert es == es[..n] + [es[n]];
    }
  }

  lemma {:induction false} RedactedTwice(rule: Rule, v: Value, depth: nat)
    ensures RedactContainer(rule, RedactContainer(rule, v, depth), depth) == RedactContainer(rule, v, depth)
    decreases v, 0
  {
    if v.Dict? && depth < MAX_DEPTH {
      EntriesSettle(rule, v.entries, depth + 1);
      SettledStays(rule, RedactEntries(rule, v.entries, depth + 1), depth + 1);
    } else if v.List? && depth < MAX_DEPTH {
      var once := RedactItems(rule, v.items, depth + 1);
      forall i | 0 <= i < |once| ensures RedactItems(rule, once, depth + 1)[i] == once[i] {
        RedactedTwice(rule, v.items[i], depth + 1);
      }
      assert RedactItems(rule, once, depth + 1) == once;
    }
  }

  lemma {:induction false} EntriesSettle(rule: Rule, es: seq<Entry>, depth: nat)
    ensures Settled(rule, RedactEntries(rule, es, depth), depth)
    decreases es, 0
  {
    if es == [] {
    } else {
      var init, last := es[..|es| - 1], es[|es| - 1];
      var k := Str(last.key);
      EntriesSettle(rule, init, depth);
      PutIs(RedactEntries(rule, init, depth), k, RedactEntry(rule, last, depth));
      EntrySettles(rule, last, depth);
    }
  }

  lemma {:induction false} EntrySettles(rule: Rule, e: Entry, depth: nat)
    ensures RedactValue(rule, Str(e.key), RedactEntry(rule, e, depth), depth) == RedactEntry(rule, e, depth)
    decreases e, 0
  {
    RedactedTwice(rule, e.value, depth);
  }

  /** Redacting a redacted record changes nothing. */
  lemma RedactingIsIdempotent(record: seq<Entry>)
    ensures RedactSecrets(RedactSecrets(record)) == RedactSecrets(record)
  {
    EntriesSettle(IsSensitive, record, 0);
    SettledStays(IsSensitive, RedactSecrets(record), 0);
  }

  /** Two records alike but for what must not be recorded are recorded alike. */
  lemma SecretsDoNotShow(a: seq<Entry>, b: seq<Entry>)
    requires AlikeEntries(IsSensitive, a, b, 0)
    ensures RedactSecrets(a) == RedactSecrets(b)
  {
    AlikeEntriesRedactAlike(IsSensitive, a, b, 0);
  }
}
