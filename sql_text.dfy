/**
 * SQL text with psycopg2-style `%s` placeholders, and the parameter tuple
 * bound to them. The listing handlers of app.py grow the text one `AND ...`
 * conjunct at a time, each conjunct carrying exactly one `%s` and pushing
 * exactly one value.
 */
module SqlText {
  import opened Wrappers

  /** The placeholder psycopg2 substitutes a bound parameter into. */
  const Slot := "%s"

  /** `s` holds no `%` at all, so psycopg2 finds no placeholder in it. */
  predicate NoPercent(s: string)
  {
    '%' !in s
  }

  /** `s` does not end in `%`, so appending text to it cannot create a new `%s`. */
  predicate OpenEnded(s: string)
  {
    s == [] || s[|s| - 1] != '%'
  }

  /** The number of `%s` placeholders in `s`. */
  function Placeholders(s: string): nat
  {
    if |s| < 2 then 0
    else (if s[0] == '%' && s[1] == 's' then 1 else 0) + Placeholders(s[1..])
  }

  lemma {:induction false} NoPercentNoPlaceholders(s: string)
    requires NoPercent(s)
    ensures Placeholders(s) == 0
  {
    if |s| >= 2 {
      assert s[0] in s;
      NoPercentNoPlaceholders(s[1..]);
    }
  }

  lemma {:induction false} PlaceholdersAppend(a: string, b: string)
    requires OpenEnded(a)
    ensures Placeholders(a + b) == Placeholders(a) + Placeholders(b)
    ensures OpenEnded(b) && b != [] ==> OpenEnded(a + b)
  {
    if a == [] {
      assert a + b == b;
    } else if |a| == 1 {
      if |b| >= 1 {
        assert (a + b)[1..] == b;
      }
    } else {
      assert (a + b)[1..] == a[1..] + b;
      PlaceholdersAppend(a[1..], b);
    }
  }

  lemma SlotHasOnePlaceholder()
    ensures Placeholders(Slot) == 1 && OpenEnded(Slot)
  {
    assert Slot[1..] == "s";
  }

  /** Fixed text followed by one `%s`: the shape of every conjunct a listing appends. */
  predicate OneSlot(clause: string)
  {
    |clause| >= |Slot| && clause[|clause| - |Slot|..] == Slot && NoPercent(clause[..|clause| - |Slot|])
  }

  lemma OneSlotPlaceholders(clause: string)
    requires OneSlot(clause)
    ensures Placeholders(clause) == 1 && OpenEnded(clause)
  {
    var prefix := clause[..|clause| - |Slot|];
    assert clause == prefix + Slot;
    NoPercentNoPlaceholders(prefix);
    SlotHasOnePlaceholder();
    PlaceholdersAppend(prefix, Slot);
  }

  /** Fixed `prefix` closed by `%s` is a one-placeholder conjunct. */
  lemma SlotAfter(prefix: string)
    requires NoPercent(prefix)
    ensures OneSlot(prefix + Slot)
  {
    var clause := prefix + Slot;
    assert clause[..|clause| - |Slot|] == prefix;
    assert clause[|clause| - |Slot|..] == Slot;
  }

  /** Fixed text free of `%`: no placeholder, and safe to append to. */
  lemma FixedText(s: string)
    requires NoPercent(s)
    ensures Placeholders(s) == 0 && OpenEnded(s)
  {
    NoPercentNoPlaceholders(s);
    if s != [] {
      assert s[|s| - 1] in s;
    }
  }

  /** `tuple(params) if params else None`: the argument handed to `execute_query`. */
  function Bind(params: seq<string>): (r: Option<seq<string>>)
    ensures r == None <==> params == []
    ensures r.Some? ==> r.value == params
  {
    if params == [] then None else Some(params)
  }

  /** How many values a bound argument supplies: none for `None`. */
  function Arity(p: Option<seq<string>>): nat
  {
    match p
    case None => 0
    case Some(ps) => |ps|
  }

  /**
   * A listing query in the shape the builders produce: fixed head, up to
   * three (`Conjuncts3`) or four (`Conjuncts4`) conjuncts each either absent
   * or holding one `%s`, then fixed tail. Every placeholder comes from a
   * conjunct that is present.
   */
  lemma Conjuncts3(head: string, a: string, b: string, c: string, group: string, order: string)
    requires NoPercent(head) && NoPercent(group) && NoPercent(order)
    requires a == "" || OneSlot(a)
    requires b == "" || OneSlot(b)
    requires c == "" || OneSlot(c)
    ensures Placeholders(head + a + b + c + group + order) ==
      (if a == "" then 0 else 1) + (if b == "" then 0 else 1) + (if c == "" then 0 else 1)
  {
    FixedText(head);
    FixedText(group);
    FixedText(order);
    Piece(head, a);
    Piece(head + a, b);
    Piece(head + a + b, c);
    PlaceholdersAppend(head + a + b + c, group);
    PlaceholdersAppend(head + a + b + c + group, order);
  }

  lemma Conjuncts4(head: string, a: string, b: string, c: string, d: string, group: string, order: string)
    requires NoPercent(head) && NoPercent(group) && NoPercent(order)
    requires a == "" || OneSlot(a)
    requires b == "" || OneSlot(b)
    requires c == "" || OneSlot(c)
    requires d == "" || OneSlot(d)
    ensures Placeholders(head + a + b + c + d + group + order) ==
      (if a == "" then 0 else 1) + (if b == "" then 0 else 1) + (if c == "" then 0 else 1) + (if d == "" then 0 else 1)
  {
    FixedText(head);
    FixedText(group);
    FixedText(order);
    Piece(head, a);
    Piece(head + a, b);
    Piece(head + a + b, c);
    Piece(head + a + b + c, d);
    PlaceholdersAppend(head + a + b + c + d, group);
    PlaceholdersAppend(head + a + b + c + d + group, order);
  }

  /** Appending an absent or one-placeholder conjunct to text safe to append to. */
  lemma Piece(text: string, a: string)
    requires OpenEnded(text)
    requires a == "" || OneSlot(a)
    ensures Placeholders(text + a) == Placeholders(text) + (if a == "" then 0 else 1)
    ensures OpenEnded(text + a)
  {
    if a == "" {
      assert text + a == text;
    } else {
      OneSlotPlaceholders(a);
      PlaceholdersAppend(text, a);
    }
  }
}
