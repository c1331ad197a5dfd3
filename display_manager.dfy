/** The queue display's paging state (bot/display_manager.py). Rendering and the
    Discord message calls sit after a call on the queue manager that it does not
    define, so a refresh with the bot ready stops there with an AttributeError. */
module DisplayManager {
  import opened Values

  function Max(a: int, b: int): int
  {
    if a >= b then a else b
  }

  /** What the refresh raises once the bot is ready: the queue manager has no
      `get_state`. */
  const NoQueueState: PyError := PyError("AttributeError", "'QueueManager' object has no attribute 'get_state'")

  class DisplayManager {
    var page: int
    const perPage: int
    /** Whether the Discord client exists and reports ready. */
    var botReady: bool

    ghost predicate Valid()
      reads this
    {
      page >= 1 && perPage == 10
    }

    constructor (ready: bool)
      ensures Valid() && page == 1 && perPage == 10 && botReady == ready
    {
      page := 1;
      perPage := 10;
      botReady := ready;
    }

    /** `update_queue_display(page)`: a truthy page is taken, at least 1; a bot that
        is not ready ends the refresh quietly, a ready one reaches the missing
        `get_state`. */
    method UpdateQueueDisplay(newPage: Option<int>) returns (o: Outcome)
      requires Valid()
      modifies this`page
      ensures Valid()
      ensures newPage.Some? && newPage.value != 0 ==> page == Max(1, newPage.value)
      ensures newPage.None? || newPage.value == 0 ==> page == old(page)
      ensures !botReady ==> o == Completed
      ensures botReady ==> o == Raised(NoQueueState)
    {
      if newPage.Some? && newPage.value != 0 {
        page := Max(1, newPage.value);
      }
      if !botReady {
        return Completed;
      }
      return Raised(NoQueueState);
    }

    /** `set_page`: the page becomes the argument, at least 1, then the display is
        refreshed. */
    method SetPage(p: int) returns (o: Outcome)
      requires Valid()
      modifies this`page
      ensures Valid()
      ensures page == Max(1, p)
      ensures o == if botReady then Raised(NoQueueState) else Completed
    {
      page := Max(1, p);
      o := UpdateQueueDisplay(None);
    }

    /** `next_page`: one page on, with no upper bound. */
    method NextPage() returns (o: Outcome)
      requires Valid()
      modifies this`page
      ensures Valid()
      ensures page == old(page) + 1
      ensures o == if botReady then Raised(NoQueueState) else Completed
    {
      page := page + 1;
      o := UpdateQueueDisplay(None);
    }

    /** `previous_page`: one page back, but never below the first. */
    method PreviousPage() returns (o: Outcome)
      requires Valid()
      modifies this`page
      ensures Valid()
      ensures page == Max(1, old(page) - 1)
      ensures old(page) > 1 ==> page == old(page) - 1
      ensures old(page) == 1 ==> page == 1
      ensures o == if botReady then Raised(NoQueueState) else Completed
    {
      page := Max(1, page - 1);
      o := UpdateQueueDisplay(None);
    }
  }

  /** Going forward and back returns to the same page, and going back from the
      first page stays there. */
  method PagingScenario()
  {
    var d := new DisplayManager(false);
    var o := d.NextPage();
    o := d.NextPage();
    assert d.page == 3;
    o := d.PreviousPage();
    o := d.PreviousPage();
    o := d.PreviousPage();
    assert d.page == 1 && o == Completed;
    o := d.UpdateQueueDisplay(Some(0));
    assert d.page == 1;
    o := d.UpdateQueueDisplay(Some(-4));
    assert d.page == 1;
    o := d.SetPage(7);
    assert d.page == 7;
  }
}
