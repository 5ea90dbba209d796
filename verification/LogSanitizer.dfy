/** Redaction of seed-shaped words in text: the replacement of every match of
    `\bS[A-Z2-7]{55}\b`, scanned from the left. */
module SeedRedaction {
  const SEED_LENGTH := 56

  function SeedMark(): string { "[REDACTED_STELLAR_SECRET]" }

  predicate IsWordChar(c: char) {
    'a' <= c <= 'z' || 'A' <= c <= 'Z' || '0' <= c <= '9' || c == '_'
  }

  predicate IsBase32(c: char) { 'A' <= c <= 'Z' || '2' <= c <= '7' }

  predicate IsSeed(w: string) {
    |w| == SEED_LENGTH && w[0] == 'S' && forall i :: 1 <= i < SEED_LENGTH ==> IsBase32(w[i])
  }

  /** The pattern matches at position `i`: 56 characters with a word boundary on either side. */
  predicate SeedAt(s: string, i: nat) {
    && i + SEED_LENGTH <= |s|
    && IsSeed(s[i..i + SEED_LENGTH])
    && (i == 0 || !IsWordChar(s[i - 1]))
    && (i + SEED_LENGTH == |s| || !IsWordChar(s[i + SEED_LENGTH]))
  }

  ghost predicate HasSeed(s: string) { exists i: nat :: SeedAt(s, i) }

  /** The global replace from position `i` on. */
  function ReplaceFrom(s: string, i: nat): string
    requires i <= |s|
    decreases |s| - i
  {
    if i == |s| then ""
    else if SeedAt(s, i) then SeedMark() + ReplaceFrom(s, i + SEED_LENGTH)
    else [s[i]] + ReplaceFrom(s, i + 1)
  }

  function Redact(s: string): string { ReplaceFrom(s, 0) }

  /** The length of the run of word characters that `s` starts with. */
  function WordLength(s: string): (n: nat)
    ensures n <= |s|
    ensures forall i :: 0 <= i < n ==> IsWordChar(s[i])
    ensures n < |s| ==> !IsWordChar(s[n])
  {
    if s == "" || !IsWordChar(s[0]) then 0 else 1 + WordLength(s[1..])
  }

  /** Redaction said without positions: split the text into whole words and single other
      characters, and put the mark for each word that is a seed. */
  function RedactWords(s: string): string {
    if s == "" then ""
    else if !IsWordChar(s[0]) then [s[0]] + RedactWords(s[1..])
    else
      var n := WordLength(s);
      (if IsSeed(s[..n]) then SeedMark() else s[..n]) + RedactWords(s[n..])
  }

  predicate IsBoundary(s: string, i: nat)
    requires i <= |s|
  {
    i == 0 || i == |s| || !IsWordChar(s[i - 1]) || !IsWordChar(s[i])
  }

  /** A match covers word characters only, and starts a word. */
  lemma SeedIsWordChars(s: string, i: nat)
    requires SeedAt(s, i)
    ensures i + SEED_LENGTH <= |s| && (i == 0 || !IsWordChar(s[i - 1]))
    ensures forall k :: i <= k < i + SEED_LENGTH ==> IsWordChar(s[k])
  {
    var w := s[i..i + SEED_LENGTH];
    forall k | i <= k < i + SEED_LENGTH ensures IsWordChar(s[k]) {
      assert s[k] == w[k - i];
    }
  }

  lemma Reassociate(a: string, b: string, c: string)
    ensures (a + b) + c == a + (b + c)
  {
  }

  /** Off the start of a word the scan only copies a character. */
  lemma ScanCopies(s: string, i: nat)
    requires i < |s| && (!IsWordChar(s[i]) || (i > 0 && IsWordChar(s[i - 1])))
    ensures ReplaceFrom(s, i) == [s[i]] + ReplaceFrom(s, i + 1)
  {
    hide SeedAt, SeedMark, IsWordChar;
    if SeedAt(s, i) {
      SeedIsWordChars(s, i);
      assert false;
    }
  }

  lemma {:induction false} ScanCopiesWord(s: string, i: nat, end: nat)
    requires 0 < i <= end <= |s|
    requires forall k :: i - 1 <= k < end ==> IsWordChar(s[k])
    ensures ReplaceFrom(s, i) == s[i..end] + ReplaceFrom(s, end)
    decreases end - i
  {
    hide *;
    if i == end {
      assert s[i..end] == "";
    } else {
      ScanCopies(s, i);
      ScanCopiesWord(s, i + 1, end);
      assert s[i..end] == [s[i]] + s[i + 1..end];
      Reassociate([s[i]], s[i + 1..end], ReplaceFrom(s, end));
    }
  }

  /** At the start of a word of length `n` the scan copies the word, or marks it if it is a seed. */
  lemma ScanTakesWord(s: string, i: nat, n: nat)
    requires 0 < n && i + n <= |s| && (i == 0 || !IsWordChar(s[i - 1]))
    requires forall k :: i <= k < i + n ==> IsWordChar(s[k])
    requires i + n == |s| || !IsWordChar(s[i + n])
    ensures ReplaceFrom(s, i) == (if IsSeed(s[i..i + n]) then SeedMark() else s[i..i + n]) + ReplaceFrom(s, i + n)
  {
    SeedIsWholeWord(s, i, n);
    hide SeedAt, SeedMark, IsSeed, IsWordChar;
    if !SeedAt(s, i) {
      assert ReplaceFrom(s, i) == [s[i]] + ReplaceFrom(s, i + 1);
      hide ReplaceFrom;
      ScanCopiesWord(s, i + 1, i + n);
      assert s[i..i + n] == [s[i]] + s[i + 1..i + n];
      Reassociate([s[i]], s[i + 1..i + n], ReplaceFrom(s, i + n));
    }
  }

  /** At the start of a word of length `n`, the pattern matches exactly when that word is a seed. */
  lemma SeedIsWholeWord(s: string, i: nat, n: nat)
    requires 0 < n && i + n <= |s| && (i == 0 || !IsWordChar(s[i - 1]))
    requires forall k :: i <= k < i + n ==> IsWordChar(s[k])
    requires i + n == |s| || !IsWordChar(s[i + n])
    ensures SeedAt(s, i) <==> IsSeed(s[i..i + n])
    ensures SeedAt(s, i) ==> n == SEED_LENGTH
  {
    hide IsWordChar;
    if SeedAt(s, i) {
      SeedIsWordChars(s, i);
      assert n == SEED_LENGTH;
    }
  }

  lemma {:induction false} ScanIsWordwise(s: string, i: nat)
    requires i <= |s| && IsBoundary(s, i)
    ensures ReplaceFrom(s, i) == RedactWords(s[i..])
    decreases |s| - i
  {
    hide ReplaceFrom, SeedAt, SeedMark, IsSeed, IsWordChar;
    if i == |s| {
      ScanEnds(s);
    } else if !IsWordChar(s[i]) {
      ScanCopies(s, i);
      ScanIsWordwise(s, i + 1);
      assert s[i..][1..] == s[i + 1..];
    } else {
      var n := WordLength(s[i..]);
      WordAt(s, i, n);
      ScanTakesWord(s, i, n);
      ScanIsWordwise(s, i + n);
      assert s[i..][n..] == s[i + n..];
    }
  }

  lemma ScanEnds(s: string)
    ensures ReplaceFrom(s, |s|) == ""
  {
  }

  lemma WordAt(s: string, i: nat, n: nat)
    requires i < |s| && IsWordChar(s[i]) && n == WordLength(s[i..])
    ensures 0 < n && i + n <= |s| && s[i..][..n] == s[i..i + n]
    ensures forall k :: i <= k < i + n ==> IsWordChar(s[k])
    ensures i + n == |s| || !IsWordChar(s[i + n])
  {
    hide IsWordChar;
    var rest := s[i..];
    forall k | i <= k < i + n ensures IsWordChar(s[k]) {
      assert s[k] == rest[k - i];
    }
  }

  /** The scan and the word-by-word description agree on every text. */
  lemma RedactIsWordwise(s: string)
    ensures Redact(s) == RedactWords(s)
  {
    ScanIsWordwise(s, 0);
    assert s[0..] == s;
  }

  /** A match inside `head + tail`, where a word may not run across the seam, lies in one of them. */
  lemma SeedInOnePart(head: string, tail: string, i: nat)
    requires SeedAt(head + tail, i)
    requires head == "" || tail == "" || !IsWordChar(head[|head| - 1]) || !IsWordChar(tail[0])
    ensures SeedAt(head, i) || (|head| <= i && SeedAt(tail, i - |head|))
  {
    var s := head + tail;
    var w := s[i..i + SEED_LENGTH];
    SeedIsWordChars(s, i);
    assert head != "" && tail != "" ==> s[|head| - 1] == head[|head| - 1] && s[|head|] == tail[0];
    if |head| <= i {
      assert tail[i - |head|..i - |head| + SEED_LENGTH] == w;
    } else if i + SEED_LENGTH <= |head| {
      assert head[i..i + SEED_LENGTH] == w;
    } else {
      assert false;
    }
  }

  /** The parts of a text: one word, or one other character, and the rest. */
  function FirstPart(s: string): (n: nat)
    requires s != ""
    ensures 0 < n <= |s|
    ensures n == |s| || !IsWordChar(s[n - 1]) || !IsWordChar(s[n])
  {
    if IsWordChar(s[0]) then WordLength(s) else 1
  }

  /** A redacted rest still starts with a non-word character if the rest did. */
  lemma RedactedSeam(s: string)
    requires s == "" || !IsWordChar(s[0])
    ensures RedactWords(s) == "" || !IsWordChar(RedactWords(s)[0])
  {
  }

  lemma ShortHasNoSeed(s: string)
    requires |s| < SEED_LENGTH
    ensures !HasSeed(s)
  {
  }

  lemma {:induction false} WordwiseLeavesNoSeed(s: string)
    ensures !HasSeed(RedactWords(s))
    decreases |s|
  {
    if s != "" {
      var n := FirstPart(s);
      var tail := RedactWords(s[n..]);
      var head := if n == SEED_LENGTH && IsSeed(s[..n]) then SeedMark() else s[..n];
      WordwiseLeavesNoSeed(s[n..]);
      assert RedactWords(s) == head + tail by {
        if !IsWordChar(s[0]) { assert s[..1] == [s[0]]; }
      }
      assert tail == "" || !IsWordChar(head[|head| - 1]) || !IsWordChar(tail[0]) by {
        if IsWordChar(s[0]) { RedactedSeam(s[n..]); }
      }
      forall i: nat ensures !SeedAt(head + tail, i) {
        if SeedAt(head + tail, i) {
          SeedInOnePart(head, tail, i);
          if SeedAt(head, i) {
            if head == SeedMark() {
              ShortHasNoSeed(head);
            } else {
              WordHasOnlyItself(head, i);
            }
            assert false;
          }
        }
      }
    }
  }

  /** Within a single word, or a single other character, only the whole can match. */
  lemma WordHasOnlyItself(w: string, i: nat)
    requires |w| == 1 || forall k :: 0 <= k < |w| ==> IsWordChar(w[k])
    requires SeedAt(w, i)
    ensures IsSeed(w)
  {
    if |w| != 1 {
      assert i == 0;
      assert w[0..SEED_LENGTH] == w;
    }
  }

  /** No redacted text contains a seed-shaped word. */
  lemma RedactLeavesNoSeed(s: string)
    ensures !HasSeed(Redact(s))
  {
    RedactIsWordwise(s);
    WordwiseLeavesNoSeed(s);
  }

  lemma {:induction false} ScanCopiesSeedless(s: string, i: nat)
    requires i <= |s| && !HasSeed(s)
    ensures ReplaceFrom(s, i) == s[i..]
    decreases |s| - i
  {
    if i < |s| {
      ScanCopiesSeedless(s, i + 1);
      assert s[i..] == [s[i]] + s[i + 1..];
    }
  }

  /** Redaction changes a text exactly when there is a seed to take out. */
  lemma RedactChangesOnlySeeds(s: string)
    ensures Redact(s) == s <==> !HasSeed(s)
  {
    if HasSeed(s) {
      RedactLeavesNoSeed(s);
    } else {
      ScanCopiesSeedless(s, 0);
    }
  }
}

/** The log sanitizer: a depth-first walk over a heap of objects that may share parts and form cycles. */
module LogSanitizer {
  import opened Texts
  import opened FiniteSets
  import opened Outcomes
  import opened SeedRedaction

  type Ref = nat

  /** A value handed to the logger. `Other` is a function or symbol, shown as the text its string
      conversion gives; an error is tested for before the object case. */
  datatype Value =
    | Null
    | Undefined
    | Text(text: string)
    | Number(number: real)
    | Boolean(flag: bool)
    | BigInt(integer: int)
    | Object(ref: Ref)
    | Error(name: string, message: string, stack: Option<string>)
    | Other(shown: string)

  /** An array element has no key; a property has one. */
  datatype Slot = Slot(key: Option<string>, value: Value)
  datatype Node = Array(slots: seq<Slot>) | Record(slots: seq<Slot>)
  type Heap = map<Ref, Node>

  /** What the sanitizer returns. `Circular` and `Redacted` are the marker strings; `Failure` is the
      plain object made from an error. */
  datatype Output =
    | PlainNull
    | PlainUndefined
    | PlainText(text: string)
    | PlainNumber(number: real)
    | PlainBoolean(flag: bool)
    | PlainBigInt(integer: int)
    | Circular
    | Redacted
    | Failure(name: string, message: string, stack: Option<string>)
    | List(items: seq<Field>)
    | Fields(items: seq<Field>)
  datatype Field = Field(key: Option<string>, value: Output)

  datatype Step = Step(out: Output, visited: set<Ref>)
  datatype SlotsStep = SlotsStep(items: seq<Field>, visited: set<Ref>)

  predicate InHeap(heap: Heap, v: Value) { v.Object? ==> v.ref in heap }

  predicate NodeInHeap(heap: Heap, node: Node) {
    forall k :: 0 <= k < |node.slots| ==>
      InHeap(heap, node.slots[k].value) && (node.slots[k].key.Some? <==> node.Record?)
  }

  /** No reference dangles, and exactly the properties of records have keys. */
  predicate WellFormed(heap: Heap) { forall r :: r in heap ==> NodeInHeap(heap, heap[r]) }

  predicate MatchesAt(key: string, word: string, at: nat) {
    at + |word| <= |key| && forall k :: 0 <= k < |word| ==> LowerCase(key[at + k]) == word[k]
  }

  predicate Mentions(key: string, word: string) {
    exists at :: 0 <= at <= |key| && MatchesAt(key, word, at)
  }

  function SensitiveWords(): seq<string> {
    ["secret", "private", "seed", "mnemonic", "password", "token", "auth", "cookie", "keypair", "credential", "pin"]
  }

  /** The key contains one of the sensitive words, in any letter case. */
  predicate Sensitive(key: string) {
    exists k :: 0 <= k < |SensitiveWords()| && Mentions(key, SensitiveWords()[k])
  }

  predicate Masked(slot: Slot) { slot.key.Some? && Sensitive(slot.key.value) }

  /** What becomes of a value that is no reference. */
  function Scalar(v: Value): Output
    requires !v.Object?
  {
    match v
    case Null => PlainNull
    case Undefined => PlainUndefined
    case Text(text) => PlainText(Redact(text))
    case Number(n) => PlainNumber(n)
    case Boolean(b) => PlainBoolean(b)
    case BigInt(n) => PlainBigInt(n)
    case Error(name, message, stack) =>
      Failure(name, Redact(message), if stack.Some? && stack.value != "" then Some(Redact(stack.value)) else None)
    case Other(shown) => PlainText(shown)
  }

  function Built(node: Node, items: seq<Field>): Output {
    if node.Array? then List(items) else Fields(items)
  }

  /** The walk, threading the set of objects already met; it ends because every object entered
      leaves fewer unvisited ones. */
  function Sanitize(heap: Heap, v: Value, visited: set<Ref>): (s: Step)
    requires WellFormed(heap) && InHeap(heap, v)
    ensures visited <= s.visited
    decreases |heap.Keys - visited|, 0, 0
  {
    if !v.Object? then Step(Scalar(v), visited)
    else if v.ref in visited then Step(Circular, visited)
    else
      FewerUnvisited(heap.Keys, visited, visited + {v.ref}, v.ref);
      var node := heap[v.ref];
      assert NodeInHeap(heap, node);
      var inner := SanitizeSlots(heap, node.slots, visited + {v.ref});
      Step(Built(node, inner.items), inner.visited)
  }

  function SanitizeSlots(heap: Heap, slots: seq<Slot>, visited: set<Ref>): (s: SlotsStep)
    requires WellFormed(heap) && forall k :: 0 <= k < |slots| ==> InHeap(heap, slots[k].value)
    ensures visited <= s.visited
    decreases |heap.Keys - visited|, |slots|
  {
    if slots == [] then SlotsStep([], visited)
    else
      var first := SanitizeSlot(heap, slots[0], visited);
      NoMoreUnvisited(heap.Keys, visited, first.visited);
      var rest := SanitizeSlots(heap, slots[1..], first.visited);
      SlotsStep([Field(slots[0].key, first.out)] + rest.items, rest.visited)
  }

  function SanitizeSlot(heap: Heap, slot: Slot, visited: set<Ref>): (s: Step)
    requires WellFormed(heap) && InHeap(heap, slot.value)
    ensures visited <= s.visited
    decreases |heap.Keys - visited|, 0, 1
  {
    if Masked(slot) then Step(Redacted, visited) else Sanitize(heap, slot.value, visited)
  }

  lemma NoMoreUnvisited(keys: set<Ref>, before: set<Ref>, after: set<Ref>)
    requires before <= after
    ensures |keys - after| <= |keys - before|
  {
    SubsetIsSmaller(keys - after, keys - before);
  }

  lemma FewerUnvisited(keys: set<Ref>, before: set<Ref>, after: set<Ref>, r: Ref)
    requires before <= after && r in keys && r in after && r !in before
    ensures |keys - after| < |keys - before|
  {
    SubsetIsSmaller(keys - after, keys - before - {r});
  }
}

/** What the sanitizer's output keeps of the input, and what it may still give away. */
module LogSanitizerProofs {
  import opened Texts
  import opened Numbers
  import opened Outcomes
  import opened MapSums
  import opened SeedRedaction
  import opened LogSanitizer

  predicate SlotsInHeap(heap: Heap, slots: seq<Slot>) {
    forall k :: 0 <= k < |slots| ==> InHeap(heap, slots[k].value)
  }

  /** One property after the other, the set of objects met passed along. */
  lemma UnfoldSlots(heap: Heap, slots: seq<Slot>, visited: set<Ref>)
    requires WellFormed(heap) && SlotsInHeap(heap, slots) && slots != []
    ensures var first := SanitizeSlot(heap, slots[0], visited);
      && SlotsInHeap(heap, slots[1..])
      && |heap.Keys - first.visited| <= |heap.Keys - visited|
      && var rest := SanitizeSlots(heap, slots[1..], first.visited);
      SanitizeSlots(heap, slots, visited) == SlotsStep([Field(slots[0].key, first.out)] + rest.items, rest.visited)
  {
    hide SanitizeSlot;
    NoMoreUnvisited(heap.Keys, visited, SanitizeSlot(heap, slots[0], visited).visited);
  }

  /** A new object is written out with its properties, and is met from then on. */
  lemma {:induction false} UnfoldObject(heap: Heap, v: Value, visited: set<Ref>)
    requires WellFormed(heap) && InHeap(heap, v) && v.Object? && v.ref !in visited
    ensures var slots := heap[v.ref].slots;
      && SlotsInHeap(heap, slots)
      && |heap.Keys - (visited + {v.ref})| < |heap.Keys - visited|
      && var inner := SanitizeSlots(heap, slots, visited + {v.ref});
      Sanitize(heap, v, visited) == Step(Built(heap[v.ref], inner.items), inner.visited)
  {
    hide SanitizeSlots;
    FewerUnvisited(heap.Keys, visited, visited + {v.ref}, v.ref);
    assert NodeInHeap(heap, heap[v.ref]);
  }

  // --- The shape of the output ---

  predicate ScalarMatches(v: Value, out: Output) {
    match v
    case Null => out.PlainNull?
    case Undefined => out.PlainUndefined?
    case Text(text) => out == PlainText(RedactWords(text))
    case Number(n) => out == PlainNumber(n)
    case Boolean(b) => out == PlainBoolean(b)
    case BigInt(n) => out == PlainBigInt(n)
    case Object(_) => false
    case Error(name, message, stack) =>
      && out.Failure? && out.name == name && out.message == RedactWords(message)
      && out.stack == (if stack == None || stack == Some("") then None else Some(RedactWords(stack.value)))
    case Other(shown) => out == PlainText(shown)
  }

  /** `out` is `v` unfolded as far as it goes: the same keys in the same order, the redaction mark under
      every sensitive key and nowhere else, every text redacted word by word. */
  predicate Matches(heap: Heap, v: Value, out: Output)
    decreases out
  {
    if !v.Object? then ScalarMatches(v, out)
    else
      || out.Circular?
      || (v.ref in heap && (if heap[v.ref].Array? then out.List? else out.Fields?)
          && SlotsMatch(heap, heap[v.ref].slots, out.items))
  }

  predicate SlotsMatch(heap: Heap, slots: seq<Slot>, items: seq<Field>)
    decreases items
  {
    |items| == |slots| && forall k :: 0 <= k < |slots| ==> SlotMatches(heap, slots[k], items[k])
  }

  predicate SlotMatches(heap: Heap, slot: Slot, item: Field)
    decreases item
  {
    item.key == slot.key && if Masked(slot) then item.value.Redacted? else Matches(heap, slot.value, item.value)
  }

  lemma {:induction false} OutputMatchesInput(heap: Heap, v: Value, visited: set<Ref>)
    requires WellFormed(heap) && InHeap(heap, v)
    ensures Matches(heap, v, Sanitize(heap, v, visited).out)
    decreases |heap.Keys - visited|, 0, 0
  {
    if !v.Object? {
      if v.Text? { RedactIsWordwise(v.text); }
      if v.Error? {
        RedactIsWordwise(v.message);
        if v.stack.Some? { RedactIsWordwise(v.stack.value); }
      }
    } else if v.ref !in visited {
      UnfoldObject(heap, v, visited);
      SlotsMatchInput(heap, heap[v.ref].slots, visited + {v.ref});
    }
  }

  lemma {:induction false} SlotMatchesInput(heap: Heap, slot: Slot, visited: set<Ref>)
    requires WellFormed(heap) && InHeap(heap, slot.value)
    ensures SlotMatches(heap, slot, Field(slot.key, SanitizeSlot(heap, slot, visited).out))
    decreases |heap.Keys - visited|, 0, 1
  {
    hide Masked, Sanitize;
    if !Masked(slot) { OutputMatchesInput(heap, slot.value, visited); }
  }

  lemma OneMoreSlotMatches(heap: Heap, slots: seq<Slot>, item: Field, items: seq<Field>)
    requires slots != [] && SlotMatches(heap, slots[0], item) && SlotsMatch(heap, slots[1..], items)
    ensures SlotsMatch(heap, slots, [item] + items)
  {
    hide SlotMatches;
    forall k | 0 <= k < |slots| ensures SlotMatches(heap, slots[k], ([item] + items)[k]) {
      if k > 0 { assert SlotMatches(heap, slots[1..][k - 1], items[k - 1]); }
    }
  }

  lemma {:induction false} SlotsMatchInput(heap: Heap, slots: seq<Slot>, visited: set<Ref>)
    requires WellFormed(heap) && SlotsInHeap(heap, slots)
    ensures SlotsMatch(heap, slots, SanitizeSlots(heap, slots, visited).items)
    decreases |heap.Keys - visited|, |slots|
  {
    hide Sanitize, SanitizeSlot, WellFormed, SlotMatches;
    if slots != [] {
      UnfoldSlots(heap, slots, visited);
      var first := SanitizeSlot(heap, slots[0], visited);
      SlotMatchesInput(heap, slots[0], visited);
      SlotsMatchInput(heap, slots[1..], first.visited);
      var rest := SanitizeSlots(heap, slots[1..], first.visited);
      OneMoreSlotMatches(heap, slots, Field(slots[0].key, first.out), rest.items);
    }
  }

  /** Every property with a sensitive key, at any depth, shows the mark. */
  predicate KeysRedacted(out: Output) {
    (out.List? || out.Fields?) ==>
      forall k :: 0 <= k < |out.items| ==>
        var item := out.items[k];
        if item.key.Some? && Sensitive(item.key.value) then item.value.Redacted? else KeysRedacted(item.value)
  }

  lemma {:induction false} MatchingOutputIsRedacted(heap: Heap, v: Value, out: Output)
    requires Matches(heap, v, out)
    ensures KeysRedacted(out)
    decreases out
  {
    hide Sensitive;
    if v.Object? && !out.Circular? {
      var slots := heap[v.ref].slots;
      forall k | 0 <= k < |out.items| && !Masked(slots[k]) ensures KeysRedacted(out.items[k].value) {
        assert SlotMatches(heap, slots[k], out.items[k]);
        MatchingOutputIsRedacted(heap, slots[k].value, out.items[k].value);
      }
      forall k | 0 <= k < |out.items| ensures SlotMatches(heap, slots[k], out.items[k]) {
      }
    }
  }

  /** A key is sensitive if and only if one of the words stands in it, whatever the letter case. */
  lemma SensitiveExactly(key: string)
    ensures Sensitive(key) <==> exists before, word, after :: word in SensitiveWords() && Folded(key) == before + word + after
  {
    if Sensitive(key) {
      var k :| 0 <= k < |SensitiveWords()| && Mentions(key, SensitiveWords()[k]);
      var word := SensitiveWords()[k];
      var at :| 0 <= at <= |key| && MatchesAt(key, word, at);
      var folded := Folded(key);
      assert folded[at..at + |word|] == word;
      assert folded == folded[..at] + word + folded[at + |word|..];
    }
    if before, word, after :| word in SensitiveWords() && Folded(key) == before + word + after {
      var k :| 0 <= k < |SensitiveWords()| && SensitiveWords()[k] == word;
      assert forall i :: 0 <= i < |word| ==> Folded(key)[|before| + i] == word[i];
      assert MatchesAt(key, word, |before|);
    }
  }

  lemma SensitiveKeysAreRedacted(heap: Heap, v: Value)
    requires WellFormed(heap) && InHeap(heap, v)
    ensures KeysRedacted(Sanitize(heap, v, {}).out)
  {
    OutputMatchesInput(heap, v, {});
    MatchingOutputIsRedacted(heap, v, Sanitize(heap, v, {}).out);
  }

  // --- The objects it enters ---

  /** `r` is `v`, or is met by following at most `n` links that no sensitive key hides. */
  ghost predicate ReachesIn(heap: Heap, v: Value, r: Ref, n: nat)
    decreases n, 0
  {
    v.Object? && (v.ref == r || (n > 0 && v.ref in heap && SlotsReachIn(heap, heap[v.ref].slots, r, n - 1)))
  }

  ghost predicate SlotsReachIn(heap: Heap, slots: seq<Slot>, r: Ref, n: nat)
    decreases n, 2
  {
    exists k :: 0 <= k < |slots| && SlotReachesIn(heap, slots[k], r, n)
  }

  ghost predicate SlotReachesIn(heap: Heap, slot: Slot, r: Ref, n: nat)
    decreases n, 1
  {
    !Masked(slot) && ReachesIn(heap, slot.value, r, n)
  }

  ghost predicate Reaches(heap: Heap, v: Value, r: Ref) { exists n: nat :: ReachesIn(heap, v, r, n) }

  predicate SlotEnters(slot: Slot, entered: set<Ref>) {
    !Masked(slot) && slot.value.Object? ==> slot.value.ref in entered
  }

  predicate SlotsEnter(slots: seq<Slot>, entered: set<Ref>) {
    forall k :: 0 <= k < |slots| ==> SlotEnters(slots[k], entered)
  }

  /** Every link out of the objects of `from` leads into `entered`. */
  predicate ClosedFrom(heap: Heap, from: set<Ref>, entered: set<Ref>) {
    forall r :: r in from ==> r in heap && SlotsEnter(heap[r].slots, entered)
  }

  lemma ClosedFromBoth(heap: Heap, before: set<Ref>, between: set<Ref>, after: set<Ref>)
    requires before <= between <= after
    requires ClosedFrom(heap, between - before, between) && ClosedFrom(heap, after - between, after)
    ensures ClosedFrom(heap, after - before, after)
  {
    hide Masked;
    forall r | r in between - before ensures SlotsEnter(heap[r].slots, after) {
      var slots := heap[r].slots;
      forall k | 0 <= k < |slots| ensures SlotEnters(slots[k], after) {
        assert SlotEnters(slots[k], between);
      }
    }
  }

  lemma {:induction false} EntersWhatItLinks(heap: Heap, v: Value, visited: set<Ref>)
    requires WellFormed(heap) && InHeap(heap, v)
    ensures var s := Sanitize(heap, v, visited);
      (v.Object? ==> v.ref in s.visited) && ClosedFrom(heap, s.visited - visited, s.visited)
    decreases |heap.Keys - visited|, 0, 0
  {
    hide Masked;
    if v.Object? && v.ref !in visited {
      UnfoldObject(heap, v, visited);
      SlotsEnterWhatTheyLink(heap, heap[v.ref].slots, visited + {v.ref});
    }
  }

  lemma {:induction false} SlotEntersWhatItLinks(heap: Heap, slot: Slot, visited: set<Ref>)
    requires WellFormed(heap) && InHeap(heap, slot.value)
    ensures var s := SanitizeSlot(heap, slot, visited);
      SlotEnters(slot, s.visited) && ClosedFrom(heap, s.visited - visited, s.visited)
    decreases |heap.Keys - visited|, 0, 1
  {
    hide Masked, Sanitize;
    if !Masked(slot) { EntersWhatItLinks(heap, slot.value, visited); }
  }

  lemma {:induction false} SlotsEnterWhatTheyLink(heap: Heap, slots: seq<Slot>, visited: set<Ref>)
    requires WellFormed(heap) && SlotsInHeap(heap, slots)
    ensures var s := SanitizeSlots(heap, slots, visited);
      SlotsEnter(slots, s.visited) && ClosedFrom(heap, s.visited - visited, s.visited)
    decreases |heap.Keys - visited|, |slots|
  {
    hide Masked, Sanitize, SanitizeSlot, WellFormed;
    if slots != [] {
      UnfoldSlots(heap, slots, visited);
      var first := SanitizeSlot(heap, slots[0], visited);
      var s := SanitizeSlots(heap, slots, visited);
      SlotEntersWhatItLinks(heap, slots[0], visited);
      SlotsEnterWhatTheyLink(heap, slots[1..], first.visited);
      ClosedFromBoth(heap, visited, first.visited, s.visited);
      forall k | 0 <= k < |slots| ensures SlotEnters(slots[k], s.visited) {
        if k > 0 { assert SlotEnters(slots[1..][k - 1], s.visited); }
      }
    }
  }

  lemma {:induction false} ReachedIsEntered(heap: Heap, v: Value, r: Ref, n: nat, entered: set<Ref>)
    requires ReachesIn(heap, v, r, n) && v.ref in entered && ClosedFrom(heap, entered, entered)
    ensures r in entered
    decreases n
  {
    hide Masked;
    if v.ref != r {
      var slots := heap[v.ref].slots;
      var k :| 0 <= k < |slots| && SlotReachesIn(heap, slots[k], r, n - 1);
      assert SlotEnters(slots[k], entered);
      ReachedIsEntered(heap, slots[k].value, r, n - 1, entered);
    }
  }

  lemma {:induction false} EnteredIsReached(heap: Heap, v: Value, visited: set<Ref>, r: Ref) returns (n: nat)
    requires WellFormed(heap) && InHeap(heap, v)
    requires r in Sanitize(heap, v, visited).visited && r !in visited
    ensures ReachesIn(heap, v, r, n)
    decreases |heap.Keys - visited|, 0
  {
    hide Masked;
    n := 0;
    if v.ref != r {
      UnfoldObject(heap, v, visited);
      n := EnteredIsReachedBySlots(heap, heap[v.ref].slots, visited + {v.ref}, r);
      n := n + 1;
    }
  }

  lemma {:induction false} EnteredIsReachedBySlots(heap: Heap, slots: seq<Slot>, visited: set<Ref>, r: Ref) returns (n: nat)
    requires WellFormed(heap) && SlotsInHeap(heap, slots)
    requires r in SanitizeSlots(heap, slots, visited).visited && r !in visited
    ensures SlotsReachIn(heap, slots, r, n)
    decreases |heap.Keys - visited|, |slots|
  {
    hide Masked;
    UnfoldSlots(heap, slots, visited);
    var first := SanitizeSlot(heap, slots[0], visited);
    if r in first.visited {
      n := EnteredIsReached(heap, slots[0].value, visited, r);
      assert SlotReachesIn(heap, slots[0], r, n);
    } else {
      n := EnteredIsReachedBySlots(heap, slots[1..], first.visited, r);
      var k :| 0 <= k < |slots| - 1 && SlotReachesIn(heap, slots[1..][k], r, n);
      assert SlotReachesIn(heap, slots[k + 1], r, n);
    }
  }

  /** The walk enters exactly the objects reachable without passing a sensitive key. */
  lemma EntersExactlyTheReachable(heap: Heap, v: Value, r: Ref)
    requires WellFormed(heap) && InHeap(heap, v)
    ensures r in Sanitize(heap, v, {}).visited <==> Reaches(heap, v, r)
  {
    hide Masked, Sanitize, ReachesIn;
    var entered := Sanitize(heap, v, {}).visited;
    if r in entered {
      var n := EnteredIsReached(heap, v, {}, r);
    }
    if Reaches(heap, v, r) {
      var n: nat :| ReachesIn(heap, v, r, n);
      EntersWhatItLinks(heap, v, {});
      assert entered - {} == entered;
      assert v.Object? by { OnlyReferencesReach(heap, v, r, n); }
      ReachedIsEntered(heap, v, r, n, entered);
    }
  }

  lemma OnlyReferencesReach(heap: Heap, v: Value, r: Ref, n: nat)
    requires ReachesIn(heap, v, r, n)
    ensures v.Object?
  {
  }

  /** A reference is shown by its object's contents or by the circular mark. */
  datatype Showing = Contents | Mark

  /** How often the output `out` of `v` shows a reference to `r` in the given way. */
  function Shown(heap: Heap, v: Value, out: Output, r: Ref, how: Showing): nat
    decreases out
  {
    if !v.Object? then 0
    else if out.Circular? then Count(how.Mark? && v.ref == r)
    else if (out.List? || out.Fields?) && v.ref in heap then
      Count(how.Contents? && v.ref == r) + ShownIn(heap, heap[v.ref].slots, out.items, r, how)
    else 0
  }

  function ShownIn(heap: Heap, slots: seq<Slot>, items: seq<Field>, r: Ref, how: Showing): nat
    decreases items
  {
    if slots == [] || items == [] then 0
    else ShownAt(heap, slots[0], items[0], r, how) + ShownIn(heap, slots[1..], items[1..], r, how)
  }

  function ShownAt(heap: Heap, slot: Slot, item: Field, r: Ref, how: Showing): nat
    decreases item
  {
    Shown(heap, slot.value, item.value, r, how)
  }

  /** The properties that refer to `r`, not counting those under sensitive keys. */
  function LinksTo(slots: seq<Slot>, r: Ref): nat {
    if slots == [] then 0 else IsLinkTo(slots[0], r) + LinksTo(slots[1..], r)
  }

  function IsLinkTo(slot: Slot, r: Ref): nat { Count(!Masked(slot) && slot.value == Object(r)) }

  ghost function LinksOf(heap: Heap, from: set<Ref>, r: Ref): map<Ref, int> {
    map q | q in from && q in heap :: LinksTo(heap[q].slots, r)
  }

  /** The references to `r` from the objects of `from`. */
  ghost function RefsTo(heap: Heap, from: set<Ref>, r: Ref): int { Sum(LinksOf(heap, from, r)) }

  lemma RefsFromBoth(heap: Heap, before: set<Ref>, between: set<Ref>, after: set<Ref>, r: Ref)
    requires before <= between <= after
    ensures RefsTo(heap, after - before, r) == RefsTo(heap, between - before, r) + RefsTo(heap, after - between, r)
  {
    hide LinksTo;
    var m, n := LinksOf(heap, between - before, r), LinksOf(heap, after - before, r);
    assert n - m.Keys == LinksOf(heap, after - between, r);
    SumOfExtension(m, n);
  }

  lemma RefsFromNew(heap: Heap, q: Ref, before: set<Ref>, after: set<Ref>, r: Ref)
    requires q in heap && q !in before && before + {q} <= after
    ensures RefsTo(heap, after - before, r) == LinksTo(heap[q].slots, r) + RefsTo(heap, after - (before + {q}), r)
  {
    hide LinksTo;
    RefsFromBoth(heap, before, before + {q}, after, r);
    assert before + {q} - before == {q};
    SumSet(map[], q, LinksTo(heap[q].slots, r));
    assert LinksOf(heap, {q}, r) == map[][q := LinksTo(heap[q].slots, r)];
  }

  lemma RefsFromNone(heap: Heap, r: Ref)
    ensures RefsTo(heap, {}, r) == 0
  {
    assert LinksOf(heap, {}, r) == map[];
  }

  /** Every object entered is shown by its contents once, and marked for each further reference. */
  ghost predicate Accounted(heap: Heap, contents: nat, marks: nat, links: nat, entered: set<Ref>, r: Ref) {
    contents == Count(r in entered) && contents + marks == links + RefsTo(heap, entered, r)
  }

  lemma {:induction false} ReferencesShow(heap: Heap, v: Value, visited: set<Ref>, r: Ref)
    requires WellFormed(heap) && InHeap(heap, v)
    ensures var s := Sanitize(heap, v, visited);
      Accounted(heap, Shown(heap, v, s.out, r, Contents), Shown(heap, v, s.out, r, Mark), Count(v == Object(r)), s.visited - visited, r)
    decreases |heap.Keys - visited|, 0, 0
  {
    hide RefsTo, LinksTo, SanitizeSlots, WellFormed, Redact, ShownIn;
    var s := Sanitize(heap, v, visited);
    if v.Object? && v.ref !in visited {
      UnfoldObject(heap, v, visited);
      hide Sanitize;
      SlotReferencesShow(heap, heap[v.ref].slots, visited + {v.ref}, r);
      RefsFromNew(heap, v.ref, visited, s.visited, r);
    } else {
      assert s.visited - visited == {};
      RefsFromNone(heap, r);
    }
  }

  lemma {:induction false} SlotShows(heap: Heap, slot: Slot, visited: set<Ref>, r: Ref)
    requires WellFormed(heap) && InHeap(heap, slot.value)
    ensures var s := SanitizeSlot(heap, slot, visited);
      var item := Field(slot.key, s.out);
      Accounted(heap, ShownAt(heap, slot, item, r, Contents), ShownAt(heap, slot, item, r, Mark), IsLinkTo(slot, r), s.visited - visited, r)
    decreases |heap.Keys - visited|, 0, 1
  {
    hide Masked, Sanitize, RefsTo;
    if Masked(slot) {
      assert visited - visited == {};
      RefsFromNone(heap, r);
    } else {
      ReferencesShow(heap, slot.value, visited, r);
    }
  }

  lemma {:induction false} SlotReferencesShow(heap: Heap, slots: seq<Slot>, visited: set<Ref>, r: Ref)
    requires WellFormed(heap) && SlotsInHeap(heap, slots)
    ensures var s := SanitizeSlots(heap, slots, visited);
      Accounted(heap, ShownIn(heap, slots, s.items, r, Contents), ShownIn(heap, slots, s.items, r, Mark), LinksTo(slots, r), s.visited - visited, r)
    decreases |heap.Keys - visited|, |slots|
  {
    hide Sanitize, SanitizeSlot, WellFormed, Accounted, ShownAt, IsLinkTo;
    if slots == [] {
      assert SanitizeSlots(heap, slots, visited) == SlotsStep([], visited);
      NothingShown(heap, visited, r);
    } else {
      UnfoldSlots(heap, slots, visited);
      var first := SanitizeSlot(heap, slots[0], visited);
      var rest := SanitizeSlots(heap, slots[1..], first.visited);
      hide SanitizeSlots, ShownIn, LinksTo;
      SlotShows(heap, slots[0], visited, r);
      SlotReferencesShow(heap, slots[1..], first.visited, r);
      OneMoreShown(heap, slots, Field(slots[0].key, first.out), rest.items, visited, first.visited, rest.visited, r);
    }
  }

  lemma NothingShown(heap: Heap, visited: set<Ref>, r: Ref)
    ensures Accounted(heap, ShownIn(heap, [], [], r, Contents), ShownIn(heap, [], [], r, Mark), LinksTo([], r), visited - visited, r)
  {
    assert visited - visited == {};
    RefsFromNone(heap, r);
  }

  lemma OneMoreShown(heap: Heap, slots: seq<Slot>, item: Field, items: seq<Field>,
                     before: set<Ref>, between: set<Ref>, after: set<Ref>, r: Ref)
    requires slots != [] && before <= between <= after
    requires Accounted(heap, ShownAt(heap, slots[0], item, r, Contents), ShownAt(heap, slots[0], item, r, Mark),
                       IsLinkTo(slots[0], r), between - before, r)
    requires Accounted(heap, ShownIn(heap, slots[1..], items, r, Contents), ShownIn(heap, slots[1..], items, r, Mark),
                       LinksTo(slots[1..], r), after - between, r)
    ensures var all := [item] + items;
      Accounted(heap, ShownIn(heap, slots, all, r, Contents), ShownIn(heap, slots, all, r, Mark), LinksTo(slots, r), after - before, r)
  {
    hide ShownAt, IsLinkTo, RefsTo;
    assert ([item] + items)[1..] == items;
    RefsFromBoth(heap, before, between, after, r);
  }

  lemma {:induction false} NoLinksOutside(slots: seq<Slot>, entered: set<Ref>, r: Ref)
    requires SlotsEnter(slots, entered) && r !in entered
    ensures LinksTo(slots, r) == 0
  {
    hide Masked;
    if slots != [] {
      assert SlotEnters(slots[0], entered);
      forall k | 0 <= k < |slots[1..]| ensures SlotEnters(slots[1..][k], entered) { assert SlotEnters(slots[k + 1], entered); }
      NoLinksOutside(slots[1..], entered, r);
    }
  }

  lemma NoRefsOutside(heap: Heap, entered: set<Ref>, r: Ref)
    requires ClosedFrom(heap, entered, entered) && r !in entered
    ensures RefsTo(heap, entered, r) == 0
  {
    forall q | q in entered ensures LinksTo(heap[q].slots, r) == 0 { NoLinksOutside(heap[q].slots, entered, r); }
    AllZeroSumsToZero(LinksOf(heap, entered, r));
  }

  /** What is entered, in terms of reachability. */
  lemma EnteredIsReachable(heap: Heap, v: Value, reachable: set<Ref>)
    requires WellFormed(heap) && InHeap(heap, v)
    requires forall r :: r in reachable <==> Reaches(heap, v, r)
    ensures Sanitize(heap, v, {}).visited == reachable && ClosedFrom(heap, reachable, reachable)
  {
    hide Sanitize, Reaches, ClosedFrom;
    var entered := Sanitize(heap, v, {}).visited;
    EntersWhatItLinks(heap, v, {});
    assert entered - {} == entered;
    forall r ensures r in entered <==> r in reachable { EntersExactlyTheReachable(heap, v, r); }
    assert entered == reachable;
  }

  /** Cyclic or shared, the contents of each reachable object are written out exactly once, and of
      nothing else. */
  lemma EachObjectIsWrittenOnce(heap: Heap, v: Value, reachable: set<Ref>, r: Ref)
    requires WellFormed(heap) && InHeap(heap, v)
    requires forall q :: q in reachable <==> Reaches(heap, v, q)
    ensures Shown(heap, v, Sanitize(heap, v, {}).out, r, Contents) == Count(r in reachable)
  {
    hide Sanitize, Reaches, Shown, RefsTo;
    EnteredIsReachable(heap, v, reachable);
    ReferencesShow(heap, v, {}, r);
    assert Sanitize(heap, v, {}).visited - {} == reachable;
  }

  /** The circular mark stands for every reference to an object beyond its first, whether it closes a
      cycle or merely shares the object. */
  lemma {:induction false} MarksAreExtraReferences(heap: Heap, v: Value, reachable: set<Ref>, r: Ref)
    requires WellFormed(heap) && InHeap(heap, v)
    requires forall q :: q in reachable <==> Reaches(heap, v, q)
    ensures Shown(heap, v, Sanitize(heap, v, {}).out, r, Mark) ==
              if r in reachable then Count(v == Object(r)) + RefsTo(heap, reachable, r) - 1 else 0
    ensures r !in reachable ==> RefsTo(heap, reachable, r) == 0
  {
    hide Sanitize, Reaches, Shown, RefsTo;
    EnteredIsReachable(heap, v, reachable);
    ReferencesShow(heap, v, {}, r);
    assert Sanitize(heap, v, {}).visited - {} == reachable;
    if r !in reachable {
      NoRefsOutside(heap, reachable, r);
      EntersWhatItLinks(heap, v, {});
    }
  }

  /** The mark appears somewhere in the output. */
  predicate HasMark(out: Output)
    decreases out
  {
    out.Circular? || ((out.List? || out.Fields?) && exists k :: 0 <= k < |out.items| && HasMark(out.items[k].value))
  }

  lemma {:induction false} ShownSomewhere(heap: Heap, slots: seq<Slot>, items: seq<Field>, r: Ref, how: Showing) returns (k: nat)
    requires ShownIn(heap, slots, items, r, how) > 0
    ensures k < |slots| && k < |items| && ShownAt(heap, slots[k], items[k], r, how) > 0
    decreases |items|
  {
    hide ShownAt;
    k := 0;
    if ShownAt(heap, slots[0], items[0], r, how) == 0 {
      k := ShownSomewhere(heap, slots[1..], items[1..], r, how);
      k := k + 1;
    }
  }

  lemma {:induction false} ShownHere(heap: Heap, slots: seq<Slot>, items: seq<Field>, r: Ref, how: Showing, k: nat)
    requires k < |slots| && k < |items|
    ensures ShownIn(heap, slots, items, r, how) >= ShownAt(heap, slots[k], items[k], r, how)
    decreases |items|
  {
    hide ShownAt;
    if k > 0 { ShownHere(heap, slots[1..], items[1..], r, how, k - 1); }
  }

  lemma {:induction false} MarkStandsForOne(heap: Heap, v: Value, out: Output) returns (r: Ref)
    requires Matches(heap, v, out) && HasMark(out)
    ensures Shown(heap, v, out, r, Mark) > 0
    decreases out
  {
    hide Masked;
    if out.Circular? {
      r := v.ref;
    } else {
      var slots := heap[v.ref].slots;
      var k :| 0 <= k < |out.items| && HasMark(out.items[k].value);
      assert SlotMatches(heap, slots[k], out.items[k]);
      r := MarkStandsForOne(heap, slots[k].value, out.items[k].value);
      assert ShownAt(heap, slots[k], out.items[k], r, Mark) > 0;
      ShownHere(heap, slots, out.items, r, Mark, k);
    }
  }

  lemma {:induction false} ShownMarkIsThere(heap: Heap, v: Value, out: Output, r: Ref)
    requires Shown(heap, v, out, r, Mark) > 0
    ensures HasMark(out)
    decreases out
  {
    if !out.Circular? {
      var k := ShownSomewhere(heap, heap[v.ref].slots, out.items, r, Mark);
      ShownMarkIsThere(heap, heap[v.ref].slots[k].value, out.items[k].value, r);
    }
  }

  /** Nothing refers to the root, and exactly one reference leads to every other object. */
  ghost predicate Tree(heap: Heap, root: Ref, reachable: set<Ref>) {
    RefsTo(heap, reachable, root) == 0 && forall r :: r in reachable && r != root ==> RefsTo(heap, reachable, r) == 1
  }

  /** The output is free of the circular mark if and only if the reachable objects form a tree. */
  lemma NoMarkExactlyForTrees(heap: Heap, root: Ref, reachable: set<Ref>)
    requires WellFormed(heap) && root in heap
    requires forall r :: r in reachable <==> Reaches(heap, Object(root), r)
    ensures !HasMark(Sanitize(heap, Object(root), {}).out) <==> Tree(heap, root, reachable)
  {
    hide Sanitize, Reaches, RefsTo, Shown, HasMark, Matches;
    var v, out := Object(root), Sanitize(heap, Object(root), {}).out;
    OutputMatchesInput(heap, v, {});
    assert root in reachable by { RootIsReached(heap, root); }
    forall r
      ensures Shown(heap, v, out, r, Mark) == if r in reachable then Count(r == root) + RefsTo(heap, reachable, r) - 1 else 0
    {
      MarksAreExtraReferences(heap, v, reachable, r);
    }
    if HasMark(out) {
      var r := MarkStandsForOne(heap, v, out);
      assert !Tree(heap, root, reachable);
    } else {
      forall r | r in reachable ensures Shown(heap, v, out, r, Mark) == 0 {
        if Shown(heap, v, out, r, Mark) > 0 { ShownMarkIsThere(heap, v, out, r); }
      }
    }
  }

  lemma RootIsReached(heap: Heap, root: Ref)
    ensures Reaches(heap, Object(root), root)
  {
    assert ReachesIn(heap, Object(root), root, 0);
  }

  // --- Seeds that get through ---

  /** A seed-shaped word anywhere in the output: in a text, an error's three fields or a key. */
  ghost predicate Leaky(out: Output)
    decreases out
  {
    match out
    case PlainText(text) => HasSeed(text)
    case Failure(name, message, stack) => HasSeed(name) || HasSeed(message) || (stack.Some? && HasSeed(stack.value))
    case List(items) => ItemsLeaky(items)
    case Fields(items) => ItemsLeaky(items)
    case _ => false
  }

  ghost predicate ItemsLeaky(items: seq<Field>)
    decreases items
  {
    exists k :: 0 <= k < |items| && ItemLeaky(items[k])
  }

  ghost predicate ItemLeaky(item: Field)
    decreases item
  {
    (item.key.Some? && HasSeed(item.key.value)) || Leaky(item.value)
  }

  /** The texts that pass unredacted: an error's name, the text of a function or symbol, and keys. */
  ghost predicate RawSeed(v: Value) {
    (v.Error? && HasSeed(v.name)) || (v.Other? && HasSeed(v.shown))
  }

  ghost predicate SlotLeaks(slot: Slot) {
    (slot.key.Some? && HasSeed(slot.key.value)) || (!Masked(slot) && RawSeed(slot.value))
  }

  ghost predicate SlotsLeak(slots: seq<Slot>) { exists k :: 0 <= k < |slots| && SlotLeaks(slots[k]) }

  ghost predicate LeaksAt(heap: Heap, r: Ref) { r in heap && SlotsLeak(heap[r].slots) }

  ghost predicate LeaksWithin(heap: Heap, entered: set<Ref>) { exists r :: r in entered && LeaksAt(heap, r) }

  lemma ScalarLeaks(v: Value)
    requires !v.Object?
    ensures Leaky(Scalar(v)) <==> RawSeed(v)
  {
    if v.Text? { RedactLeavesNoSeed(v.text); }
    if v.Error? {
      RedactLeavesNoSeed(v.message);
      if v.stack.Some? { RedactLeavesNoSeed(v.stack.value); }
    }
  }

  lemma {:induction false} ValueLeaks(heap: Heap, v: Value, visited: set<Ref>)
    requires WellFormed(heap) && InHeap(heap, v)
    ensures var s := Sanitize(heap, v, visited);
      Leaky(s.out) <==> RawSeed(v) || LeaksWithin(heap, s.visited - visited)
    decreases |heap.Keys - visited|, 0, 0
  {
    hide Scalar, HasSeed, SlotsLeak, ItemsLeaky;
    var s := Sanitize(heap, v, visited);
    if !v.Object? {
      ScalarLeaks(v);
    } else if v.ref !in visited {
      UnfoldObject(heap, v, visited);
      SlotsLeakOut(heap, heap[v.ref].slots, visited + {v.ref});
      LeaksWithinBoth(heap, visited, visited + {v.ref}, s.visited);
      assert LeaksWithin(heap, visited + {v.ref} - visited) <==> LeaksAt(heap, v.ref);
    }
  }

  lemma {:induction false} SlotLeaksOut(heap: Heap, slot: Slot, visited: set<Ref>)
    requires WellFormed(heap) && InHeap(heap, slot.value)
    ensures var s := SanitizeSlot(heap, slot, visited);
      ItemLeaky(Field(slot.key, s.out)) <==> SlotLeaks(slot) || LeaksWithin(heap, s.visited - visited)
    decreases |heap.Keys - visited|, 0, 1
  {
    hide Masked, Sanitize, HasSeed, LeaksAt;
    if !Masked(slot) { ValueLeaks(heap, slot.value, visited); }
  }

  lemma LeaksWithinBoth(heap: Heap, before: set<Ref>, between: set<Ref>, after: set<Ref>)
    requires before <= between <= after
    ensures LeaksWithin(heap, after - before)
       <==> LeaksWithin(heap, between - before) || LeaksWithin(heap, after - between)
  {
    hide LeaksAt;
  }

  lemma OneMoreSlotLeaks(slots: seq<Slot>, item: Field, items: seq<Field>)
    requires slots != []
    ensures SlotsLeak(slots) <==> SlotLeaks(slots[0]) || SlotsLeak(slots[1..])
    ensures ItemsLeaky([item] + items) <==> ItemLeaky(item) || ItemsLeaky(items)
  {
    hide SlotLeaks, ItemLeaky;
    if SlotsLeak(slots[1..]) {
      var k :| 0 <= k < |slots| - 1 && SlotLeaks(slots[1..][k]);
      assert SlotLeaks(slots[k + 1]);
    }
    if SlotsLeak(slots) && !SlotLeaks(slots[0]) {
      var k :| 0 <= k < |slots| && SlotLeaks(slots[k]);
      assert SlotLeaks(slots[1..][k - 1]);
    }
    var all := [item] + items;
    if ItemsLeaky(items) {
      var k :| 0 <= k < |items| && ItemLeaky(items[k]);
      assert ItemLeaky(all[k + 1]);
    }
    if ItemLeaky(item) { assert ItemLeaky(all[0]); }
    if ItemsLeaky(all) && !ItemLeaky(item) {
      var k :| 0 <= k < |all| && ItemLeaky(all[k]);
      assert ItemLeaky(items[k - 1]);
    }
  }

  lemma {:induction false} SlotsLeakOut(heap: Heap, slots: seq<Slot>, visited: set<Ref>)
    requires WellFormed(heap) && SlotsInHeap(heap, slots)
    ensures var s := SanitizeSlots(heap, slots, visited);
      ItemsLeaky(s.items) <==> SlotsLeak(slots) || LeaksWithin(heap, s.visited - visited)
    decreases |heap.Keys - visited|, |slots|
  {
    hide Sanitize, SanitizeSlot, WellFormed, SlotLeaks, ItemLeaky, LeaksAt;
    if slots != [] {
      UnfoldSlots(heap, slots, visited);
      var first := SanitizeSlot(heap, slots[0], visited);
      var rest := SanitizeSlots(heap, slots[1..], first.visited);
      SlotLeaksOut(heap, slots[0], visited);
      SlotsLeakOut(heap, slots[1..], first.visited);
      OneMoreSlotLeaks(slots, Field(slots[0].key, first.out), rest.items);
      LeaksWithinBoth(heap, visited, first.visited, rest.visited);
    }
  }

  /** The output holds a seed-shaped word exactly when the value, or an object reachable from it
      without passing a sensitive key, has one in a text that passes unredacted. */
  lemma LeaksExactlyRawSeeds(heap: Heap, v: Value)
    requires WellFormed(heap) && InHeap(heap, v)
    ensures Leaky(Sanitize(heap, v, {}).out)
       <==> RawSeed(v) || exists r :: Reaches(heap, v, r) && LeaksAt(heap, r)
  {
    hide Sanitize, LeaksAt, Reaches, Leaky, RawSeed;
    var entered := Sanitize(heap, v, {}).visited;
    ValueLeaks(heap, v, {});
    assert entered - {} == entered;
    forall r ensures r in entered <==> Reaches(heap, v, r) {
      EntersExactlyTheReachable(heap, v, r);
    }
  }

  /** Redaction does not reach an error's name, a function's source text or a key. */
  lemma SeedsGetThrough(seed: string)
    requires IsSeed(seed)
    ensures Leaky(Sanitize(map[], Error(seed, "", None), {}).out)
    ensures Leaky(Sanitize(map[], Other(seed), {}).out)
    ensures Leaky(Sanitize(map[0 := Record([Slot(Some(seed), Null)])], Object(0), {}).out)
  {
    hide IsSeed;
    assert HasSeed(seed) by { SeedAlone(seed); }
    var heap := map[0 := Record([Slot(Some(seed), Null)])];
    assert NodeInHeap(heap, heap[0]);
    LeaksExactlyRawSeeds(map[], Error(seed, "", None));
    LeaksExactlyRawSeeds(map[], Other(seed));
    LeaksExactlyRawSeeds(heap, Object(0));
    assert SlotLeaks(heap[0].slots[0]);
    assert ReachesIn(heap, Object(0), 0, 0);
    assert Reaches(heap, Object(0), 0) && LeaksAt(heap, 0);
  }

  lemma SeedAlone(seed: string)
    requires IsSeed(seed)
    ensures SeedAt(seed, 0)
  {
    assert seed[0..SEED_LENGTH] == seed;
  }

  // --- Errors are logged through two passes ---

  /** In `heap`, `v` is the value `out`, shared in any way. */
  predicate Represents(heap: Heap, v: Value, out: Output)
    decreases out
  {
    match out
    case PlainNull => v.Null?
    case PlainUndefined => v.Undefined?
    case PlainText(text) => v == Text(text)
    case PlainNumber(n) => v == Number(n)
    case PlainBoolean(b) => v == Boolean(b)
    case PlainBigInt(n) => v == BigInt(n)
    case Circular => v == Text("[CIRCULAR]")
    case Redacted => v == Text("[REDACTED]")
    case Failure(_, _, _) => v.Object? && v.ref in heap && heap[v.ref] == FailureRecord(out)
    case List(items) =>
      v.Object? && v.ref in heap && heap[v.ref].Array? && SlotsRepresent(heap, heap[v.ref].slots, items)
    case Fields(items) =>
      v.Object? && v.ref in heap && heap[v.ref].Record? && SlotsRepresent(heap, heap[v.ref].slots, items)
  }

  function FailureRecord(out: Output): Node
    requires out.Failure?
  {
    Record([
      Slot(Some("name"), Text(out.name)),
      Slot(Some("message"), Text(out.message)),
      Slot(Some("stack"), if out.stack.Some? then Text(out.stack.value) else Undefined)])
  }

  predicate SlotsRepresent(heap: Heap, slots: seq<Slot>, items: seq<Field>)
    decreases items
  {
    |slots| == |items| && forall k :: 0 <= k < |slots| ==> SlotRepresents(heap, slots[k], items[k])
  }

  predicate SlotRepresents(heap: Heap, slot: Slot, item: Field)
    decreases item
  {
    slot.key == item.key && Represents(heap, slot.value, item.value)
  }

  /** A seed-shaped word in a key of the output. */
  ghost predicate KeysLeak(out: Output)
    decreases out
  {
    (out.List? || out.Fields?) && exists k :: 0 <= k < |out.items| && KeyLeaksIn(out.items[k])
  }

  ghost predicate KeyLeaksIn(item: Field)
    decreases item
  {
    (item.key.Some? && HasSeed(item.key.value)) || KeysLeak(item.value)
  }

  lemma FailureRecordIsClean(heap: Heap, v: Value, out: Output)
    requires out.Failure? && Represents(heap, v, out)
    ensures !LeaksAt(heap, v.ref)
    ensures forall k :: 0 <= k < |heap[v.ref].slots| ==> !heap[v.ref].slots[k].value.Object?
  {
    ShortHasNoSeed("name");
    ShortHasNoSeed("message");
    ShortHasNoSeed("stack");
  }

  lemma RepresentedIsPlain(heap: Heap, v: Value, out: Output)
    requires Represents(heap, v, out)
    ensures !v.Error? && !v.Other?
  {
  }

  lemma {:induction false} RepresentedLeakIsAKey(heap: Heap, v: Value, out: Output, r: Ref, n: nat)
    requires Represents(heap, v, out) && ReachesIn(heap, v, r, n) && LeaksAt(heap, r)
    ensures KeysLeak(out)
    decreases n
  {
    hide Masked, HasSeed;
    var slots := heap[v.ref].slots;
    if out.Failure? {
      FailureRecordIsClean(heap, v, out);
      assert v.ref != r;
      var k :| 0 <= k < |slots| && SlotReachesIn(heap, slots[k], r, n - 1);
      OnlyReferencesReach(heap, slots[k].value, r, n - 1);
      assert false;
    } else if v.ref == r {
      var k :| 0 <= k < |slots| && SlotLeaks(slots[k]);
      assert SlotRepresents(heap, slots[k], out.items[k]);
      RepresentedIsPlain(heap, slots[k].value, out.items[k].value);
      assert KeyLeaksIn(out.items[k]);
    } else {
      var k :| 0 <= k < |slots| && SlotReachesIn(heap, slots[k], r, n - 1);
      assert SlotRepresents(heap, slots[k], out.items[k]);
      RepresentedLeakIsAKey(heap, slots[k].value, out.items[k].value, r, n - 1);
      assert KeyLeaksIn(out.items[k]);
    }
  }

  lemma {:induction false} LeakingKeyIsReached(heap: Heap, v: Value, out: Output) returns (r: Ref, n: nat)
    requires Represents(heap, v, out) && KeysRedacted(out) && KeysLeak(out)
    ensures ReachesIn(heap, v, r, n) && LeaksAt(heap, r)
    decreases out
  {
    hide Sensitive, HasSeed;
    var slots := heap[v.ref].slots;
    var k :| 0 <= k < |out.items| && KeyLeaksIn(out.items[k]);
    var item := out.items[k];
    assert SlotRepresents(heap, slots[k], item);
    if item.key.Some? && HasSeed(item.key.value) {
      r, n := v.ref, 0;
      assert SlotLeaks(slots[k]);
    } else {
      r, n := LeakingKeyIsReached(heap, slots[k].value, item.value);
      assert SlotReachesIn(heap, slots[k], r, n);
      n := n + 1;
    }
  }

  /** `w` is `p`, or lies in it at most `n` levels down and under no sensitive key. */
  ghost predicate Contains(heap: Heap, p: Value, w: Value, n: nat)
    decreases n
  {
    p == w ||
    (n > 0 && p.Object? && p.ref in heap &&
      exists k :: 0 <= k < |heap[p.ref].slots| && !Masked(heap[p.ref].slots[k]) && Contains(heap, heap[p.ref].slots[k].value, w, n - 1))
  }

  lemma {:induction false} ReachedThrough(heap: Heap, p: Value, w: Value, n: nat, r: Ref, m: nat)
    requires Contains(heap, p, w, n) && ReachesIn(heap, w, r, m)
    ensures ReachesIn(heap, p, r, n + m)
    decreases n
  {
    hide Masked;
    if p == w {
      ReachesFurther(heap, w, r, m, n + m);
    } else {
      var slots := heap[p.ref].slots;
      var k :| 0 <= k < |slots| && !Masked(slots[k]) && Contains(heap, slots[k].value, w, n - 1);
      ReachedThrough(heap, slots[k].value, w, n - 1, r, m);
      assert SlotReachesIn(heap, slots[k], r, n + m - 1);
    }
  }

  lemma {:induction false} ReachesFurther(heap: Heap, v: Value, r: Ref, n: nat, more: nat)
    requires ReachesIn(heap, v, r, n) && n <= more
    ensures ReachesIn(heap, v, r, more)
    decreases n
  {
    hide Masked;
    if v.ref != r {
      var slots := heap[v.ref].slots;
      var k :| 0 <= k < |slots| && SlotReachesIn(heap, slots[k], r, n - 1);
      ReachesFurther(heap, slots[k].value, r, n - 1, more - 1);
      assert SlotReachesIn(heap, slots[k], r, more - 1);
    }
  }

  /** An object of the payload that is not part of `w` gives something away. */
  ghost predicate LeaksElsewhere(heap: Heap, p: Value, w: Value) {
    exists r :: Reaches(heap, p, r) && !Reaches(heap, w, r) && LeaksAt(heap, r)
  }

  /** Sanitizing a payload that contains the output of an earlier pass, as the error loggers do, closes
      every gap in that part but one: the payload leaks if and only if it leaks elsewhere or a key of
      the earlier output holds a seed. */
  lemma {:induction false} SecondPassLeavesOnlyKeys(heap: Heap, v: Value, again: Heap, payload: Value, w: Value, n: nat)
    requires WellFormed(heap) && InHeap(heap, v) && WellFormed(again) && InHeap(again, payload)
    requires Represents(again, w, Sanitize(heap, v, {}).out) && Contains(again, payload, w, n)
    ensures Leaky(Sanitize(again, payload, {}).out) <==>
              KeysLeak(Sanitize(heap, v, {}).out) || LeaksElsewhere(again, payload, w)
  {
    hide Sanitize, LeaksAt, Leaky, KeysLeak, KeysRedacted, ReachesIn, WellFormed, Represents;
    var out := Sanitize(heap, v, {}).out;
    SensitiveKeysAreRedacted(heap, v);
    LeaksExactlyRawSeeds(again, payload);
    RepresentedIsPlain(again, w, out);
    assert !RawSeed(payload);
    if KeysLeak(out) {
      var r, m := LeakingKeyIsReached(again, w, out);
      ReachedThrough(again, payload, w, n, r, m);
      assert Reaches(again, payload, r);
    }
    if r :| Reaches(again, payload, r) && LeaksAt(again, r) && Reaches(again, w, r) {
      var m: nat :| ReachesIn(again, w, r, m);
      RepresentedLeakIsAKey(again, w, out, r, m);
    }
  }

  /** A letter of the word that the key lacks. */
  lemma NoMention(key: string, word: string, j: nat)
    requires j < |word| && forall i :: 0 <= i < |key| ==> LowerCase(key[i]) != word[j]
    ensures !Mentions(key, word)
  {
    var letter := word[j];
    if at :| 0 <= at <= |key| && MatchesAt(key, word, at) {
      assert false;
    }
  }

  lemma LoggerKeysAreOpen()
    ensures !Sensitive("metadata") && !Sensitive("error")
  {
    var words := SensitiveWords();
    var inMetadata, inError := [0, 0, 0, 1, 0, 1, 1, 0, 0, 0, 0], [0, 0, 0, 0, 0, 0, 0, 0, 0, 0, 0];
    forall k | 0 <= k < |words| ensures !Mentions("metadata", words[k]) && !Mentions("error", words[k]) {
      NoMention("metadata", words[k], inMetadata[k]);
      NoMention("error", words[k], inError[k]);
    }
  }

  /** The payload of a failure log: a record whose `metadata` holds the sanitized error. */
  predicate IsFailureLog(heap: Heap, root: Ref, w: Value, i: nat, j: nat) {
    && root in heap && i < |heap[root].slots| && heap[root].slots[i].key == Some("metadata")
    && heap[root].slots[i].value.Object?
    && var metadata := heap[root].slots[i].value.ref;
    metadata in heap && j < |heap[metadata].slots| && heap[metadata].slots[j] == Slot(Some("error"), w)
  }

  /** Neither key is sensitive, so a failure log contains its error. */
  lemma FailureLogContainsError(heap: Heap, root: Ref, w: Value, i: nat, j: nat)
    requires IsFailureLog(heap, root, w, i, j)
    ensures Contains(heap, Object(root), w, 2)
  {
    LoggerKeysAreOpen();
    hide Sensitive;
    var outer := heap[root].slots[i];
    var inner := heap[outer.value.ref].slots[j];
    assert !Masked(outer) && !Masked(inner);
    assert Contains(heap, inner.value, w, 0);
    assert Contains(heap, outer.value, w, 1);
  }
}

/** The sanitizer as it runs: recursion over one mutable set of objects met. */
module TelemetrySanitizer {
  import opened LogSanitizer
  import opened LogSanitizerProofs

  class Sanitizer {
    const heap: Heap
    var visited: set<Ref>

    ghost predicate Valid() { WellFormed(heap) }

    constructor (heap: Heap)
      requires WellFormed(heap)
      ensures Valid() && this.heap == heap && visited == {}
    {
      this.heap := heap;
      visited := {};
    }

    /** Sanitizes one value, marking the objects it enters. */
    method SanitizeValue(v: Value) returns (out: Output)
      requires Valid() && InHeap(heap, v)
      modifies this
      ensures Step(out, visited) == Sanitize(heap, v, old(visited))
      decreases |heap.Keys - visited|, 0
    {
      if !v.Object? { return Scalar(v); }
      if v.ref in visited { return Circular; }
      FewerUnvisited(heap.Keys, visited, visited + {v.ref}, v.ref);
      visited := visited + {v.ref};
      var node := heap[v.ref];
      assert NodeInHeap(heap, node);
      var items := SanitizeAll(node.slots);
      out := Built(node, items);
    }

    /** What is done up to slot `i` and what the specification makes of the rest give the whole. */
    ghost predicate SanitizedSoFar(slots: seq<Slot>, i: nat, start: set<Ref>, items: seq<Field>, now: set<Ref>)
      requires Valid() && SlotsInHeap(heap, slots) && i <= |slots|
    {
      var rest := SanitizeSlots(heap, slots[i..], now);
      SanitizeSlots(heap, slots, start) == SlotsStep(items + rest.items, rest.visited)
    }

    lemma OneMoreSanitized(slots: seq<Slot>, i: nat, start: set<Ref>, items: seq<Field>, now: set<Ref>)
      requires Valid() && SlotsInHeap(heap, slots) && i < |slots|
      requires SanitizedSoFar(slots, i, start, items, now)
      ensures var s := SanitizeSlot(heap, slots[i], now);
        SanitizedSoFar(slots, i + 1, start, items + [Field(slots[i].key, s.out)], s.visited)
    {
      hide SanitizeSlot, SanitizeSlots, WellFormed;
      var s := SanitizeSlot(heap, slots[i], now);
      var item := Field(slots[i].key, s.out);
      UnfoldSlots(heap, slots[i..], now);
      assert slots[i..][1..] == slots[i + 1..];
      var rest := SanitizeSlots(heap, slots[i + 1..], s.visited).items;
      assert items + ([item] + rest) == items + [item] + rest;
    }

    lemma NoSlotsLeft(slots: seq<Slot>, now: set<Ref>)
      requires Valid()
      ensures SanitizeSlots(heap, slots[|slots|..], now) == SlotsStep([], now)
    {
    }

    /** The loop over an array's elements or a record's properties, filling the result. */
    method SanitizeAll(slots: seq<Slot>) returns (items: seq<Field>)
      requires Valid() && SlotsInHeap(heap, slots)
      modifies this
      ensures SlotsStep(items, visited) == SanitizeSlots(heap, slots, old(visited))
      decreases |heap.Keys - visited|, 1 + |slots|
    {
      hide Sanitize, SanitizeSlots, WellFormed, Masked;
      items := [];
      ghost var start := visited;
      assert slots[0..] == slots;
      for i := 0 to |slots|
        invariant start <= visited
        invariant SanitizedSoFar(slots, i, start, items, visited)
      {
        OneMoreSanitized(slots, i, start, items, visited);
        NoMoreUnvisited(heap.Keys, start, visited);
        var value := Redacted;
        if !Masked(slots[i]) { value := SanitizeValue(slots[i].value); }
        items := items + [Field(slots[i].key, value)];
      }
      NoSlotsLeft(slots, visited);
    }
  }
}
