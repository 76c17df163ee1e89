/** The context stack: a context variable holding a list of items that
    `push_context_item` extends for the duration of a call and
    `get_context_item` searches by name or alias. */
module Context {
  import opened Common
  import opened PyModel

  /** A context item. `value == NoneV` is Python's `value=None`; `getValue` is the
      outcome of calling `get_value()` when one was given. */
  datatype ContextItem = ContextItem(
    name: string,
    value: Value,
    getValue: Option<Result<Value, Error>>,
    aliases: seq<string>)

  /** `ContextItem.resolve`: a non-None value, else `get_value()`, else ValueError. */
  function Resolve(item: ContextItem): (r: Result<Value, Error>)
    ensures item.value != NoneV ==> r == Ok(item.value)
    ensures item.value == NoneV && item.getValue.Some? ==> r == item.getValue.value
    ensures item.value == NoneV && item.getValue.None? ==> r == Err(Error(ValueError, item.name))
  {
    if item.value != NoneV then Ok(item.value)
    else match item.getValue
      case Some(outcome) => outcome
      case None => Err(Error(ValueError, item.name))
  }

  predicate Matches(item: ContextItem, name: string) {
    item.name == name || name in item.aliases
  }

  /** The position of the first item, in push order, that answers to `name`. */
  function FirstMatch(items: seq<ContextItem>, name: string): (r: Option<nat>)
    ensures r.None? <==> forall j :: 0 <= j < |items| ==> !Matches(items[j], name)
    ensures r.Some? ==> r.value < |items| && Matches(items[r.value], name)
                        && forall j :: 0 <= j < r.value ==> !Matches(items[j], name)
  {
    if items == [] then None
    else if Matches(items[0], name) then Some(0)
    else match FirstMatch(items[1..], name)
      case None => None
      case Some(i) => Some(i + 1)
  }

  /** `get_context_item(name)` over the current list. */
  function GetContextItem(items: seq<ContextItem>, name: string): (r: Result<Value, Error>)
    ensures (forall j :: 0 <= j < |items| ==> !Matches(items[j], name)) ==> r == Err(Error(ValueError, name))
    ensures forall i :: (0 <= i < |items| && Matches(items[i], name)
                         && (forall j :: 0 <= j < i ==> !Matches(items[j], name))) ==> r == Resolve(items[i])
  {
    match FirstMatch(items, name)
    case None => Err(Error(ValueError, name))
    case Some(i) => Resolve(items[i])
  }

  /** An item pushed later never shadows an earlier one that answers to the same name:
      the earliest-pushed match wins. */
  lemma {:induction false} PushKeepsEarlierMatch(items: seq<ContextItem>, item: ContextItem, name: string)
    requires exists j :: 0 <= j < |items| && Matches(items[j], name)
    ensures GetContextItem(items + [item], name) == GetContextItem(items, name)
  {
    var i := FirstMatch(items, name).value;
    var pushed := items + [item];
    assert pushed[i] == items[i];
    assert forall j :: 0 <= j < i ==> pushed[j] == items[j];
  }

  /** A pushed item is found by its name, and by each alias, when nothing before it answers. */
  lemma {:induction false} PushedItemIsFound(items: seq<ContextItem>, item: ContextItem, name: string)
    requires forall j :: 0 <= j < |items| ==> !Matches(items[j], name)
    requires name == item.name || name in item.aliases
    ensures GetContextItem(items + [item], name) == Resolve(item)
  {
    var pushed := items + [item];
    assert pushed[|items|] == item;
    assert forall j :: 0 <= j < |items| ==> pushed[j] == items[j];
  }

  /** The `quickscript_context` context variable. */
  class ContextVar {
    var items: seq<ContextItem>

    /** Its default is the empty list. */
    constructor ()
      ensures items == []
    {
      items := [];
    }

    /** `with push_context_item(item): body()`: the body sees the previous list
        extended by one item; afterwards the previous list is back, whether the body
        returned or raised. */
    method PushAndRun<R>(item: ContextItem, body: seq<ContextItem> -> Result<R, Error>)
      returns (r: Result<R, Error>)
      modifies this
      ensures r == body(old(items) + [item])
      ensures items == old(items)
    {
      var token := items;
      items := items + [item];
      r := body(items);
      items := token;
    }
  }
}
