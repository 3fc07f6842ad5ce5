/**
 * The POST handlers that write: `store_create`, `store_edit`, `food_create`,
 * `food_edit` and `review_create`. Each strips its form fields, checks the
 * required ones, and only then issues one INSERT or UPDATE whose optional
 * blank fields are bound as NULL.
 */
module Forms {
  import opened Wrappers
  import opened PyStr
  import opened SqlText

  /** A value bound into a write: SQL NULL (Python `None`), a form string, or an id from the URL path. */
  datatype Param = Null | Str(s: string) | Id(n: int)

  /** The five writes, one per handler. */
  datatype Command = InsertStore | UpdateStore | InsertFood | UpdateFood | InsertReview

  /** A write as `execute_query` receives it: which statement, and the values bound into it. */
  datatype Statement = Statement(command: Command, params: seq<Param>)

  /** What a handler decides from the form before it touches the database. */
  datatype Outcome = Invalid(message: string) | Write(stmt: Statement)

  /** The submitted field strips to `''`: the value a handler's `if not ...` check rejects. */
  predicate Blank(form: map<string, string>, key: string)
  {
    Field(form, key, "") == ""
  }

  /** A field is blank exactly when it is missing, empty or whitespace only. */
  lemma BlankIsWhitespace(form: map<string, string>, key: string)
    ensures Blank(form, key) <==> key !in form || AllSpace(form[key])
  {
    StripEmpty(Get(form, key, ""));
  }

  /** `x if x else None`: a blank optional field is bound as NULL, any other as it is. */
  function OrNull(s: string): (p: Param)
    ensures p == Null <==> s == ""
    ensures p != Null ==> p == Str(s)
    ensures Unpadded(s) ==> Clean(p)
  {
    if s != "" then Str(s) else Null
  }

  /** A bound value as the handlers produce it: NULL, an id, or a non-empty string without surrounding whitespace. */
  predicate Clean(p: Param)
  {
    p.Str? ==> p.s != "" && Unpadded(p.s)
  }

  predicate AllClean(ps: seq<Param>)
  {
    forall i | 0 <= i < |ps| :: Clean(ps[i])
  }

  // ------------------------------------------------------ statement texts

  /** `%s, %s, ..., %s` with `n` placeholders: the VALUES list of an INSERT. */
  function SlotList(n: nat): string
    requires n >= 1
  {
    if n == 1 then Slot else SlotList(n - 1) + ", " + Slot
  }

  lemma {:induction false} SlotListPlaceholders(n: nat)
    requires n >= 1
    ensures Placeholders(SlotList(n)) == n && OpenEnded(SlotList(n))
  {
    SlotHasOnePlaceholder();
    if n > 1 {
      SlotListPlaceholders(n - 1);
      FixedText(", ");
      PlaceholdersAppend(SlotList(n - 1), ", ");
      PlaceholdersAppend(SlotList(n - 1) + ", ", Slot);
    }
  }

  /** Fixed text, then `n` placeholders, then fixed text. */
  lemma Framed(head: string, n: nat, tail: string)
    requires n >= 1 && NoPercent(head) && NoPercent(tail)
    ensures Placeholders(head + SlotList(n) + tail) == n
  {
    FixedText(head);
    FixedText(tail);
    SlotListPlaceholders(n);
    PlaceholdersAppend(head, SlotList(n));
    PlaceholdersAppend(head + SlotList(n), tail);
  }

  /** Appending a placeholder and then fixed text adds exactly one placeholder. */
  lemma SlotThen(text: string, part: string)
    requires OpenEnded(text) && NoPercent(part)
    ensures Placeholders(text + Slot + part) == Placeholders(text) + 1
    ensures OpenEnded(text + Slot + part)
  {
    SlotHasOnePlaceholder();
    FixedText(part);
    PlaceholdersAppend(text, Slot);
    PlaceholdersAppend(text + Slot, part);
  }

  function StoreInsertHead(): (s: string)
    ensures NoPercent(s)
  {
    "\n                INSERT INTO stores " + "(store_name, location_id)\n"
  }

  function StoreUpdateHead(): (s: string)
    ensures NoPercent(s)
  {
    "\n                UPDATE stores\n" + "                SET store_name = "
  }

  function StoreUpdateWhere(): (s: string)
    ensures NoPercent(s)
  {
    "\n                WHERE store_id = "
  }

  function FoodInsertHead(): (s: string)
    ensures NoPercent(s)
  {
    "\n            INSERT INTO foods " + "(food_name, price, " + "calories, store_id)\n"
  }

  function FoodUpdateHead(): (s: string)
    ensures NoPercent(s)
  {
    "\n            UPDATE foods\n" + "            SET food_name = "
  }

  function FoodUpdateWhere(): (s: string)
    ensures NoPercent(s)
  {
    "\n            WHERE food_id = "
  }

  function ReviewInsertTable(): (s: string)
    ensures NoPercent(s)
  {
    "\n            INSERT INTO reviews " + "(rating, cp_value, healthy, "
  }

  function ReviewInsertHead(): (s: string)
    ensures NoPercent(s)
  {
    ReviewInsertTable() + "fullness, comment, " + "user_id, food_id)\n"
  }

  /** `lead` `VALUES (%s, ..., %s)` with `n` placeholders, then a line break and `tail`. */
  function ValuesClause(lead: string, n: nat, tail: string): (s: string)
    requires n >= 1 && NoPercent(lead) && NoPercent(tail)
    ensures Placeholders(s) == n
  {
    var opening := lead + "VALUES (";
    var closing := ")\n" + tail;
    Framed(opening, n, closing);
    opening + SlotList(n) + closing
  }

  /** Fixed text followed by a VALUES list: only the list's placeholders count. */
  lemma Insert(head: string, values: string)
    requires NoPercent(head)
    ensures Placeholders(head + values) == Placeholders(values)
  {
    FixedText(head);
    PlaceholdersAppend(head, values);
  }

  /** app.py:168-171. */
  function StoreInsertSql(): (s: string)
    ensures Placeholders(s) == 2
  {
    var values := ValuesClause("                ", 2, "            ");
    Insert(StoreInsertHead(), values);
    StoreInsertHead() + values
  }

  /** app.py:196-200. */
  function StoreUpdateSql(): (s: string)
    ensures Placeholders(s) == 3
  {
    var a := StoreUpdateHead();
    var b := ", location_id = ";
    var c := StoreUpdateWhere();
    var d := "\n            ";
    FixedText(a);
    SlotThen(a, b);
    SlotThen(a + Slot + b, c);
    SlotThen(a + Slot + b + Slot + c, d);
    a + Slot + b + Slot + c + Slot + d
  }

  /** app.py:309-312. */
  function FoodInsertSql(): (s: string)
    ensures Placeholders(s) == 4
  {
    var values := ValuesClause("            ", 4, "        ");
    Insert(FoodInsertHead(), values);
    FoodInsertHead() + values
  }

  /** app.py:332-336. */
  function FoodUpdateSql(): (s: string)
    ensures Placeholders(s) == 4
  {
    var a := FoodUpdateHead();
    var b := ", price = ";
    var c := ", calories = ";
    var d := FoodUpdateWhere();
    var e := "\n        ";
    FixedText(a);
    SlotThen(a, b);
    SlotThen(a + Slot + b, c);
    SlotThen(a + Slot + b + Slot + c, d);
    SlotThen(a + Slot + b + Slot + c + Slot + d, e);
    a + Slot + b + Slot + c + Slot + d + Slot + e
  }

  /** app.py:443-446. */
  function ReviewInsertSql(): (s: string)
    ensures Placeholders(s) == 7
  {
    var values := ValuesClause("            ", 7, "        ");
    Insert(ReviewInsertHead(), values);
    ReviewInsertHead() + values
  }

  /** The text of each write, as `execute_query` sends it. */
  function CommandSql(c: Command): string
  {
    match c
    case InsertStore => StoreInsertSql()
    case UpdateStore => StoreUpdateSql()
    case InsertFood => FoodInsertSql()
    case UpdateFood => FoodUpdateSql()
    case InsertReview => ReviewInsertSql()
  }

  /** How many values each write binds. */
  function CommandArity(c: Command): nat
  {
    match c
    case InsertStore => 2
    case UpdateStore => 3
    case InsertFood => 4
    case UpdateFood => 4
    case InsertReview => 7
  }

  /** Every write's text has one `%s` per value it binds. */
  lemma CommandPlaceholders(c: Command)
    ensures Placeholders(CommandSql(c)) == CommandArity(c)
  {
  }

  /** The statement binds exactly one value per `%s` of its text. */
  predicate Aligned(st: Statement)
  {
    Placeholders(CommandSql(st.command)) == |st.params|
  }

  // ------------------------------------------------------------ validation

  /** The check and the write of `store_create` and `store_edit`, on the stripped fields. */
  function CheckStore(command: Command, name: string, location: string, key: seq<Param>): (o: Outcome)
    requires Unpadded(name) && Unpadded(location) && AllClean(key)
    ensures o.Invalid? <==> name == ""
    ensures o.Invalid? ==> o.message == "Store name is required"
    ensures o.Write? ==> o.stmt == Statement(command, [Str(name), OrNull(location)] + key)
    ensures o.Write? ==> AllClean(o.stmt.params)
  {
    if name == "" then Invalid("Store name is required")
    else Write(Statement(command, [Str(name), OrNull(location)] + key))
  }

  /** `store_create` lines 160-171: `store_name` is required, a blank `location_id` is bound as NULL. */
  function StoreCreate(form: map<string, string>): (o: Outcome)
    ensures o.Invalid? <==> Blank(form, "store_name")
    ensures o.Invalid? ==> o.message == "Store name is required"
    ensures o.Write? ==> o.stmt.command == InsertStore
    ensures o.Write? ==> |o.stmt.params| == CommandArity(o.stmt.command)
    ensures o.Write? ==> AllClean(o.stmt.params)
    ensures o.Write? ==>
      o.stmt.params == [Str(Field(form, "store_name", "")), OrNull(Field(form, "location_id", ""))]
  {
    CheckStore(InsertStore, Field(form, "store_name", ""), Field(form, "location_id", ""), [])
  }

  /** `store_edit` lines 188-200: as for creation, with the store id from the URL bound last. */
  function StoreEdit(storeId: int, form: map<string, string>): (o: Outcome)
    ensures o.Invalid? <==> Blank(form, "store_name")
    ensures o.Invalid? ==> o.message == "Store name is required"
    ensures o.Write? ==> o.stmt.command == UpdateStore
    ensures o.Write? ==> |o.stmt.params| == CommandArity(o.stmt.command)
    ensures o.Write? ==> AllClean(o.stmt.params)
    ensures o.Write? ==>
      o.stmt.params == [Str(Field(form, "store_name", "")), OrNull(Field(form, "location_id", "")), Id(storeId)]
  {
    CheckStore(UpdateStore, Field(form, "store_name", ""), Field(form, "location_id", ""), [Id(storeId)])
  }

  /** `food_create` lines 304-312, on the stripped fields. */
  function CheckFood(name: string, price: string, calories: string, store: string): (o: Outcome)
    requires Unpadded(name) && Unpadded(price) && Unpadded(calories) && Unpadded(store)
    ensures o.Invalid? <==> name == "" || price == "" || store == ""
    ensures o.Invalid? ==> o.message == "Food name, price, and store are required"
    ensures o.Write? ==> o.stmt == Statement(InsertFood, [Str(name), Str(price), OrNull(calories), Str(store)])
    ensures o.Write? ==> AllClean(o.stmt.params)
  {
    if name == "" || price == "" || store == "" then Invalid("Food name, price, and store are required")
    else Write(Statement(InsertFood, [Str(name), Str(price), OrNull(calories), Str(store)]))
  }

  /** `food_create` lines 299-312: `food_name`, `price` and `store_id` are required, blank `calories` is NULL. */
  function FoodCreate(form: map<string, string>): (o: Outcome)
    ensures o.Invalid? <==> Blank(form, "food_name") || Blank(form, "price") || Blank(form, "store_id")
    ensures o.Invalid? ==> o.message == "Food name, price, and store are required"
    ensures o.Write? ==> o.stmt.command == InsertFood
    ensures o.Write? ==> |o.stmt.params| == CommandArity(o.stmt.command)
    ensures o.Write? ==> AllClean(o.stmt.params)
    ensures o.Write? ==>
      o.stmt.params == [Str(Field(form, "food_name", "")), Str(Field(form, "price", "")),
                        OrNull(Field(form, "calories", "")), Str(Field(form, "store_id", ""))]
  {
    CheckFood(Field(form, "food_name", ""), Field(form, "price", ""), Field(form, "calories", ""),
              Field(form, "store_id", ""))
  }

  /** `food_edit` lines 327-336, on the stripped fields. */
  function CheckFoodEdit(foodId: int, name: string, price: string, calories: string): (o: Outcome)
    requires Unpadded(name) && Unpadded(price) && Unpadded(calories)
    ensures o.Invalid? <==> name == "" || price == ""
    ensures o.Invalid? ==> o.message == "Food name and price are required"
    ensures o.Write? ==> o.stmt == Statement(UpdateFood, [Str(name), Str(price), OrNull(calories), Id(foodId)])
    ensures o.Write? ==> AllClean(o.stmt.params)
  {
    if name == "" || price == "" then Invalid("Food name and price are required")
    else Write(Statement(UpdateFood, [Str(name), Str(price), OrNull(calories), Id(foodId)]))
  }

  /** `food_edit` lines 323-336: `food_name` and `price` are required, the food id from the URL is bound last. */
  function FoodEdit(foodId: int, form: map<string, string>): (o: Outcome)
    ensures o.Invalid? <==> Blank(form, "food_name") || Blank(form, "price")
    ensures o.Invalid? ==> o.message == "Food name and price are required"
    ensures o.Write? ==> o.stmt.command == UpdateFood
    ensures o.Write? ==> |o.stmt.params| == CommandArity(o.stmt.command)
    ensures o.Write? ==> AllClean(o.stmt.params)
    ensures o.Write? ==>
      o.stmt.params == [Str(Field(form, "food_name", "")), Str(Field(form, "price", "")),
                        OrNull(Field(form, "calories", "")), Id(foodId)]
  {
    CheckFoodEdit(foodId, Field(form, "food_name", ""), Field(form, "price", ""), Field(form, "calories", ""))
  }

  /** The four scores and the comment of a review, each optional. */
  datatype Scores = Scores(rating: string, cpValue: string, healthy: string, fullness: string, comment: string)

  predicate ScoresUnpadded(sc: Scores)
  {
    Unpadded(sc.rating) && Unpadded(sc.cpValue) && Unpadded(sc.healthy) && Unpadded(sc.fullness) && Unpadded(sc.comment)
  }

  function ScoresOf(form: map<string, string>): (sc: Scores)
    ensures ScoresUnpadded(sc)
  {
    Scores(Field(form, "rating", ""), Field(form, "cp_value", ""), Field(form, "healthy", ""),
           Field(form, "fullness", ""), Field(form, "comment", ""))
  }

  /** `review_create` lines 438-454, on the stripped fields. */
  function CheckReview(sc: Scores, user: string, food: string): (o: Outcome)
    requires ScoresUnpadded(sc) && Unpadded(user) && Unpadded(food)
    ensures o.Invalid? <==> user == "" || food == ""
    ensures o.Invalid? ==> o.message == "User and food are required"
    ensures o.Write? ==> o.stmt == Statement(InsertReview,
      [OrNull(sc.rating), OrNull(sc.cpValue), OrNull(sc.healthy), OrNull(sc.fullness), OrNull(sc.comment),
       Str(user), Str(food)])
    ensures o.Write? ==> AllClean(o.stmt.params)
  {
    if user == "" || food == "" then Invalid("User and food are required")
    else
      Write(Statement(InsertReview,
        [OrNull(sc.rating), OrNull(sc.cpValue), OrNull(sc.healthy), OrNull(sc.fullness), OrNull(sc.comment),
         Str(user), Str(food)]))
  }

  /** `review_create` lines 430-454: `user_id` and `food_id` are required, the four scores and the comment are optional. */
  function ReviewCreate(form: map<string, string>): (o: Outcome)
    ensures o.Invalid? <==> Blank(form, "user_id") || Blank(form, "food_id")
    ensures o.Invalid? ==> o.message == "User and food are required"
    ensures o.Write? ==> o.stmt.command == InsertReview
    ensures o.Write? ==> |o.stmt.params| == CommandArity(o.stmt.command)
    ensures o.Write? ==> AllClean(o.stmt.params)
    ensures o.Write? ==>
      o.stmt.params == [OrNull(Field(form, "rating", "")), OrNull(Field(form, "cp_value", "")),
                        OrNull(Field(form, "healthy", "")), OrNull(Field(form, "fullness", "")),
                        OrNull(Field(form, "comment", "")),
                        Str(Field(form, "user_id", "")), Str(Field(form, "food_id", ""))]
  {
    CheckReview(ScoresOf(form), Field(form, "user_id", ""), Field(form, "food_id", ""))
  }

  /** A write that binds as many values as its command takes has one value per `%s`. */
  lemma WriteAligned(st: Statement)
    requires |st.params| == CommandArity(st.command)
    ensures Aligned(st)
  {
    CommandPlaceholders(st.command);
  }

  // -------------------------------------------------------------- response

  function SuccessNotice(c: Command): string
  {
    match c
    case InsertStore => "Store created successfully"
    case UpdateStore => "Store updated successfully"
    case InsertFood => "Food item created successfully"
    case UpdateFood => "Food item updated successfully"
    case InsertReview => "Review created successfully"
  }

  function FailurePrefix(c: Command): string
  {
    match c
    case InsertStore => "Error creating store: "
    case UpdateStore => "Error updating store: "
    case InsertFood => "Error creating food item: "
    case UpdateFood => "Error updating food item: "
    case InsertReview => "Error creating review: "
  }

  /**
   * What a POST leaves behind: the statements sent to the database, those of
   * them that took effect, and the notice flashed to the user.
   */
  datatype Response = Response(issued: seq<Statement>, committed: seq<Statement>, notice: string)

  /**
   * The `try`/`except` around `execute_query`. The database's answer is given:
   * `None` when the statement succeeds, `Some(e)` when it raises with message
   * `e`, in which case `execute_query` rolls it back.
   */
  function Submit(o: Outcome, dbError: Option<string>): (r: Response)
    ensures r.issued == [] <==> o.Invalid?
    ensures r.committed != [] <==> o.Write? && dbError == None
    ensures r.committed == [] || r.committed == r.issued
    ensures |r.issued| <= 1
    ensures o.Write? ==> r.issued == [o.stmt]
    ensures o.Invalid? ==> r.notice == o.message
    ensures o.Write? && dbError == None ==> r.notice == SuccessNotice(o.stmt.command)
    ensures o.Write? && dbError.Some? ==> r.notice == FailurePrefix(o.stmt.command) + dbError.value
  {
    match o
    case Invalid(message) => Response([], [], message)
    case Write(stmt) =>
      match dbError
      case None => Response([stmt], [stmt], SuccessNotice(stmt.command))
      case Some(e) => Response([stmt], [], FailurePrefix(stmt.command) + e)
  }

  /**
   * A form that fails validation issues no statement, whatever the database
   * would have answered, and flashes the validation message.
   */
  lemma InvalidFormsWriteNothing(form: map<string, string>, id: int, dbError: Option<string>)
    ensures Blank(form, "store_name") ==>
      Submit(StoreCreate(form), dbError) == Response([], [], "Store name is required") &&
      Submit(StoreEdit(id, form), dbError) == Response([], [], "Store name is required")
    ensures Blank(form, "food_name") || Blank(form, "price") || Blank(form, "store_id") ==>
      Submit(FoodCreate(form), dbError) == Response([], [], "Food name, price, and store are required")
    ensures Blank(form, "food_name") || Blank(form, "price") ==>
      Submit(FoodEdit(id, form), dbError) == Response([], [], "Food name and price are required")
    ensures Blank(form, "user_id") || Blank(form, "food_id") ==>
      Submit(ReviewCreate(form), dbError) == Response([], [], "User and food are required")
  {
  }
}
