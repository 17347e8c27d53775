/** The to-do service (src/todo/todo.service.ts): ownership lookup, free
    edits and deletion, and the one-shot completion with its gold and pet
    side effects. */
module TodoService {
  import opened Outcomes
  import opened Rules
  import opened Store
  import opened Lookup

  /** The optional fields of an edit request; None leaves a field as it is.
      `completed` is among them, so an edit can reopen a completed to-do. */
  datatype TodoPatch = TodoPatch(
    title: Option<string>,
    notes: Option<string>,
    difficulty: Option<Difficulty>,
    dueDate: Option<int>,
    completed: Option<bool>)

  /** The to-do with the request's fields written over it; the owner is out
      of the request's reach. */
  function Patched(t: Todo, p: TodoPatch): (t': Todo)
    ensures t'.userId == t.userId
    ensures t'.completed == if p.completed.Some? then p.completed.value else t.completed
    ensures t'.difficulty == if p.difficulty.Some? then p.difficulty.value else t.difficulty
    ensures p == TodoPatch(None, None, None, None, None) ==> t' == t
  {
    t.(title := p.title.GetOr(t.title),
       notes := p.notes.GetOr(t.notes),
       difficulty := p.difficulty.GetOr(t.difficulty),
       dueDate := if p.dueDate.Some? then p.dueDate else t.dueDate,
       completed := p.completed.GetOr(t.completed))
  }

  /** The to-do `id` looked up for `userId`, by the ownership check every
      service shares (Lookup.FindOwned). */
  function FindOne(todos: map<TodoId, Todo>, id: TodoId, userId: UserId): Result<Todo> {
    FindOwned(todos, id, userId, (t: Todo) => t.userId)
  }

  /** Write the request's fields over the owner's to-do, with no gold check
      and no restriction on the difficulty or the completion flag. */
  method Update(db: Store, id: TodoId, patch: TodoPatch, userId: UserId) returns (r: Result<Todo>)
    modifies db`todos
    ensures var found := FindOne(old(db.todos), id, userId);
      r == if found.Failure? then Failure(found.error) else Success(Patched(found.value, patch))
    ensures db.todos == if r.Success? then old(db.todos)[id := r.value] else old(db.todos)
  {
    var found := FindOne(db.todos, id, userId);
    if found.Failure? {
      return Failure(found.error);
    }
    var updated := Patched(found.value, patch);
    db.todos := db.todos[id := updated];
    r := Success(updated);
  }

  /** Delete the owner's to-do for free. */
  method Remove(db: Store, id: TodoId, userId: UserId) returns (r: Result<()>)
    modifies db`todos
    ensures var found := FindOne(old(db.todos), id, userId);
      r == if found.Failure? then Failure(found.error) else Success(())
    ensures db.todos == if r.Success? then old(db.todos) - {id} else old(db.todos)
  {
    var found := FindOne(db.todos, id, userId);
    if found.Failure? {
      return Failure(found.error);
    }
    db.todos := db.todos - {id};
    r := Success(());
  }

  /** Complete a to-do and return the gold it earned. An already completed
      to-do is a Conflict with no writes. Otherwise the owner earns the
      difficulty's to-do points (there is no gold lock on to-dos), the pet
      gains 5 happiness and the to-do's `completed` flag is set, no other
      field changing. A missing user or pet row makes the write fail. */
  method Complete(db: Store, todoId: TodoId, userId: UserId) returns (r: Result<nat>)
    modifies db`users, db`pets, db`todos
    ensures r.Failure? ==> db.users == old(db.users) && db.pets == old(db.pets) && db.todos == old(db.todos)
    ensures var found := FindOne(old(db.todos), todoId, userId);
      r == if found.Failure? then Failure(found.error)
           else if found.value.completed then Failure(Conflict)
           else if userId !in old(db.users) || userId !in old(db.pets) then Failure(Internal)
           else Success(TodoPoints(found.value.difficulty))
    ensures r.Success? ==>
      var pet := old(db.pets)[userId];
      && db.users == AdjustGold(old(db.users), userId, r.value)
      && db.pets == old(db.pets)[userId := pet.(happiness := pet.happiness + 5)]
      && db.todos == old(db.todos)[todoId := old(db.todos)[todoId].(completed := true)]
  {
    var found := FindOne(db.todos, todoId, userId);
    if found.Failure? {
      return Failure(found.error);
    }
    var todo := found.value;
    if todo.completed {
      return Failure(Conflict);
    }
    var goldChange := TodoPoints(todo.difficulty);
    var happinessChange := 5;
    if userId !in db.users || userId !in db.pets {
      return Failure(Internal);
    }
    var user := db.users[userId];
    db.users := db.users[userId := user.(gold := user.gold + goldChange)];
    var pet := db.pets[userId];
    db.pets := db.pets[userId := pet.(happiness := pet.happiness + happinessChange)];
    db.todos := db.todos[todoId := todo.(completed := true)];
    r := Success(goldChange);
  }

  /** Completion is terminal only as far as `complete` goes: an edit that
      sets `completed` back to false makes the to-do completable, and
      payable, again. */
  lemma ReopenedTodoIsCompletable(todos: map<TodoId, Todo>, id: TodoId, userId: UserId, p: TodoPatch)
    requires FindOne(todos, id, userId).Success?
    requires p.completed == Some(false)
    ensures var t' := Patched(todos[id], p);
      FindOne(todos[id := t'], id, userId).Success? && !t'.completed
  {
  }
}
