/**
 * The dynamic-record writer: an `ExpandoObject` is copied into a dictionary
 * whose keys compare ignoring case, and every plan step is written with the
 * value found under its field name, or null when there is none.
 */
module DynamicRecord {
  import opened Wrappers
  import opened AvroModel

  /** Case folding of one character (ASCII letters only). */
  function FoldChar(c: char): char {
    if 'A' <= c <= 'Z' then (c as int - 'A' as int + 'a' as int) as char else c
  }

  /** The form under which the case-insensitive dictionary compares a key. */
  function FoldCase(s: string): (r: string)
    ensures |r| == |s|
    ensures forall i :: 0 <= i < |s| ==> r[i] == FoldChar(s[i])
  {
    if s == [] then [] else [FoldChar(s[0])] + FoldCase(s[1..])
  }

  /** Two dynamic keys that the case-insensitive dictionary cannot both hold. */
  predicate HasFoldCollision(members: seq<Member>) {
    exists i, j :: 0 <= i < j < |members| && FoldCase(members[i].key) == FoldCase(members[j].key)
  }

  /** Some member's key equals `name` ignoring case. */
  predicate HasKeyIgnoringCase(members: seq<Member>, name: string) {
    exists i :: 0 <= i < |members| && FoldCase(members[i].key) == FoldCase(name)
  }

  /**
   * What `TryGetValue` finds under `name` in the case-insensitive copy of
   * `members` (which exists only when no two keys collide).
   */
  function DynamicLookup(members: seq<Member>, name: string): Option<Value>
  {
    if members == [] then None
    else if FoldCase(members[0].key) == FoldCase(name) then Some(members[0].value)
    else DynamicLookup(members[1..], name)
  }

  /** `TryGetValue` on a dictionary whose comparer ignores case, keyed by folded keys. */
  function TryGetValue(dict: map<string, Value>, name: string): Option<Value> {
    if FoldCase(name) in dict then Some(dict[FoldCase(name)]) else None
  }

  /** What one plan step writes for a dynamic record: its encoder on the value found, or on null. */
  function DynamicFieldEvent(members: seq<Member>, step: WriteStep): Event {
    WroteField(step.writeField, DynamicLookup(members, step.fieldName).GetOr(NullValue))
  }

  /** The writer events of a dynamic record, step by step through the plan. */
  function DynamicEvents(plan: seq<WriteStep>, members: seq<Member>): seq<Event>
  {
    if plan == [] then []
    else DynamicEvents(plan[..|plan| - 1], members) + [DynamicFieldEvent(members, plan[|plan| - 1])]
  }

  // ---------------------------------------------------------------------------
  // Properties of the lookup and of the events

  /** The lookup finds a value exactly when some key matches ignoring case. */
  lemma {:induction false} LookupFound(members: seq<Member>, name: string)
    ensures DynamicLookup(members, name).Some? <==> HasKeyIgnoringCase(members, name)
  {
    if members != [] {
      LookupFound(members[1..], name);
      if HasKeyIgnoringCase(members[1..], name) {
        var i :| 0 <= i < |members[1..]| && FoldCase(members[1..][i].key) == FoldCase(name);
        assert FoldCase(members[i + 1].key) == FoldCase(name);
      }
      if HasKeyIgnoringCase(members, name) && FoldCase(members[0].key) != FoldCase(name) {
        var i :| 0 <= i < |members| && FoldCase(members[i].key) == FoldCase(name);
        assert i > 0 && members[1..][i - 1] == members[i];
      }
    }
  }

  /** When no keys collide, the lookup returns the one member whose key matches ignoring case. */
  lemma {:induction false} LookupFindsMember(members: seq<Member>, name: string, i: nat)
    requires !HasFoldCollision(members)
    requires i < |members| && FoldCase(members[i].key) == FoldCase(name)
    ensures DynamicLookup(members, name) == Some(members[i].value)
  {
    if i > 0 {
      assert FoldCase(members[0].key) != FoldCase(name);
      var rest := members[1..];
      forall a, b | 0 <= a < b < |rest| ensures FoldCase(rest[a].key) != FoldCase(rest[b].key) {
        assert rest[a] == members[a + 1] && rest[b] == members[b + 1];
      }
      LookupFindsMember(members[1..], name, i - 1);
    }
  }

  /** Lookup ignores case: names equal up to case find the same value. */
  lemma {:induction false} LookupIgnoresCase(members: seq<Member>, a: string, b: string)
    requires FoldCase(a) == FoldCase(b)
    ensures DynamicLookup(members, a) == DynamicLookup(members, b)
  {
    if members != [] {
      LookupIgnoresCase(members[1..], a, b);
    }
  }

  /** A member whose key matches no looked-up name does not change what the lookup finds. */
  lemma {:induction false} LookupSkipsOtherKey(before: seq<Member>, extra: Member, after: seq<Member>, name: string)
    requires FoldCase(extra.key) != FoldCase(name)
    ensures DynamicLookup(before + [extra] + after, name) == DynamicLookup(before + after, name)
  {
    if before == [] {
      assert before + [extra] + after == [extra] + after;
      assert before + after == after;
      assert ([extra] + after)[1..] == after;
    } else {
      assert (before + [extra] + after)[1..] == before[1..] + [extra] + after;
      assert (before + after)[1..] == before[1..] + after;
      LookupSkipsOtherKey(before[1..], extra, after, name);
    }
  }

  /** Every plan step is written exactly once, in plan order, with the value its name finds. */
  lemma {:induction false} DynamicEventsAt(plan: seq<WriteStep>, members: seq<Member>)
    ensures |DynamicEvents(plan, members)| == |plan|
    ensures forall i :: 0 <= i < |plan| ==>
      DynamicEvents(plan, members)[i] ==
        WroteField(plan[i].writeField, DynamicLookup(members, plan[i].fieldName).GetOr(NullValue))
  {
    if plan != [] {
      var prefix := plan[..|plan| - 1];
      DynamicEventsAt(prefix, members);
      forall i | 0 <= i < |plan| - 1 ensures plan[i] == prefix[i] { }
    }
  }

  /** A step whose name no key matches writes null with its own encoder. */
  lemma {:induction false} MissingKeyWritesNull(plan: seq<WriteStep>, members: seq<Member>, i: nat)
    requires i < |plan| && !HasKeyIgnoringCase(members, plan[i].fieldName)
    ensures i < |DynamicEvents(plan, members)|
    ensures DynamicEvents(plan, members)[i] == WroteField(plan[i].writeField, NullValue)
  {
    DynamicEventsAt(plan, members);
    LookupFound(members, plan[i].fieldName);
  }

  /** Keys that no plan step names produce no output. */
  lemma {:induction false} UnplannedKeyIgnored(plan: seq<WriteStep>, before: seq<Member>, extra: Member, after: seq<Member>)
    requires forall i :: 0 <= i < |plan| ==> FoldCase(extra.key) != FoldCase(plan[i].fieldName)
    ensures DynamicEvents(plan, before + [extra] + after) == DynamicEvents(plan, before + after)
  {
    var extended, original := before + [extra] + after, before + after;
    DynamicEventsAt(plan, extended);
    DynamicEventsAt(plan, original);
    forall i | 0 <= i < |plan|
      ensures DynamicLookup(extended, plan[i].fieldName) == DynamicLookup(original, plan[i].fieldName)
    {
      LookupSkipsOtherKey(before, extra, after, plan[i].fieldName);
    }
  }

  /** Extending the members by one changes the lookup only for names nothing earlier matched. */
  lemma {:induction false} LookupSnoc(members: seq<Member>, m: Member, name: string)
    ensures DynamicLookup(members + [m], name) ==
      if DynamicLookup(members, name).Some? then DynamicLookup(members, name)
      else if FoldCase(m.key) == FoldCase(name) then Some(m.value)
      else None
  {
    if members == [] {
      assert [] + [m] == [m];
    } else {
      assert (members + [m])[1..] == members[1..] + [m];
      LookupSnoc(members[1..], m, name);
    }
  }

  // ---------------------------------------------------------------------------
  // The operations

  /**
   * Copies the dynamic record into a dictionary whose keys compare ignoring
   * case. Adding a key already present ignoring case throws, as `ToDictionary`
   * does; otherwise the dictionary finds, under any name, what the lookup finds.
   */
  method ToCaseInsensitiveDictionary(members: seq<Member>) returns (r: Result<map<string, Value>, EncodeError>)
    ensures r.Failure? <==> HasFoldCollision(members)
    ensures r.Failure? ==> r.error == DuplicateKey
    ensures r.Success? ==> forall name :: TryGetValue(r.value, name) == DynamicLookup(members, name)
  {
    var dict: map<string, Value> := map[];
    var i := 0;
    while i < |members|
      invariant 0 <= i <= |members|
      invariant !HasFoldCollision(members[..i])
      invariant forall name :: TryGetValue(dict, name) == DynamicLookup(members[..i], name)
    {
      var m := members[i];
      var key := FoldCase(m.key);
      assert members[..i + 1] == members[..i] + [m];
      if key in dict {
        assert TryGetValue(dict, m.key).Some?;
        LookupFound(members[..i], m.key);
        var j :| 0 <= j < i && FoldCase(members[..i][j].key) == FoldCase(m.key);
        assert FoldCase(members[j].key) == FoldCase(members[i].key);
        return Failure(DuplicateKey);
      }
      assert !HasKeyIgnoringCase(members[..i], m.key) by {
        assert TryGetValue(dict, m.key).None?;
        LookupFound(members[..i], m.key);
      }
      var prefix, extended := members[..i], members[..i + 1];
      forall a, b | 0 <= a < b < i + 1 ensures FoldCase(extended[a].key) != FoldCase(extended[b].key) {
        assert extended[a] == prefix[a];
        if b < i {
          assert extended[b] == prefix[b];
        } else {
          assert extended[b] == m;
        }
      }
      var dict' := dict[key := m.value];
      forall name ensures TryGetValue(dict', name) == DynamicLookup(extended, name) {
        LookupSnoc(members[..i], m, name);
        if FoldCase(name) == key {
          LookupIgnoresCase(members[..i], name, m.key);
          LookupFound(members[..i], m.key);
        }
      }
      dict := dict[key := m.value];
      i := i + 1;
    }
    assert members[..i] == members;
    r := Success(dict);
  }

  /**
   * Writes a dynamic record: when its keys can be copied into the
   * case-insensitive dictionary, each plan step in order writes the value
   * found under its name, or null; when two keys collide, nothing is written.
   */
  method HandleExpando(writers: seq<WriteStep>, encoder: Writer, members: seq<Member>) returns (outcome: Outcome<EncodeError>)
    modifies encoder
    ensures outcome.Pass? <==> !HasFoldCollision(members)
    ensures outcome.Fail? ==> outcome.error == DuplicateKey
    ensures encoder.log == old(encoder.log) + (if outcome.Pass? then DynamicEvents(writers, members) else [])
  {
    var expandoDictionary := ToCaseInsensitiveDictionary(members);
    if expandoDictionary.Failure? {
      return Fail(expandoDictionary.error);
    }
    var dict := expandoDictionary.value;
    var i := 0;
    while i < |writers|
      invariant 0 <= i <= |writers|
      invariant encoder.log == old(encoder.log) + DynamicEvents(writers[..i], members)
    {
      var writer := writers[i];
      var value := TryGetValue(dict, writer.fieldName).GetOr(NullValue);
      assert writers[..i + 1][..i] == writers[..i];
      encoder.WriteField(writer.writeField, value);
      i := i + 1;
    }
    assert writers[..i] == writers;
    outcome := Pass;
  }
}
