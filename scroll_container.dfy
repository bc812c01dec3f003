/**
 * The scroll container directive
 * (projects/angular-draggable-droppable/src/lib/draggable-scroll-container.directive.ts).
 *
 * It holds a flag that, while set, makes the container swallow cancelable
 * touch moves, and switches the container's `overflow` style with it. Its
 * scroll metrics are the element's, read as fields.
 */
module ScrollContainer {
  import opened DragTypes

  /** The long-press configuration: duration in milliseconds, delta in pixels. */
  datatype LongPressConfig = LongPressConfig(duration: int, delta: int)

  const DefaultLongPress: LongPressConfig := LongPressConfig(300, 30)

  class DraggableScrollContainer {
    var activeLongPressDrag: bool
    var longPressConfig: LongPressConfig
    var cancelledScroll: bool
    /** The `overflow` style the directive last set; none before the first. */
    var overflow: Option<string>
    var scrollWidth: int
    var clientWidth: int
    var scrollHeight: int
    var clientHeight: int

    /** The container gets the inputs' defaults and scrolls freely. */
    constructor (scrollWidth: int, clientWidth: int, scrollHeight: int, clientHeight: int)
      ensures !activeLongPressDrag && longPressConfig == DefaultLongPress
      ensures !cancelledScroll && overflow == None
      ensures this.scrollWidth == scrollWidth && this.clientWidth == clientWidth
      ensures this.scrollHeight == scrollHeight && this.clientHeight == clientHeight
    {
      activeLongPressDrag := false;
      longPressConfig := DefaultLongPress;
      cancelledScroll := false;
      overflow := None;
      this.scrollWidth := scrollWidth;
      this.clientWidth := clientWidth;
      this.scrollHeight := scrollHeight;
      this.clientHeight := clientHeight;
    }

    /** `disableScroll`. */
    method DisableScroll()
      modifies this`cancelledScroll, this`overflow
      ensures cancelledScroll && overflow == Some("hidden")
    {
      cancelledScroll := true;
      overflow := Some("hidden");
    }

    /** `enableScroll`. */
    method EnableScroll()
      modifies this`cancelledScroll, this`overflow
      ensures !cancelledScroll && overflow == Some("auto")
    {
      cancelledScroll := false;
      overflow := Some("auto");
    }

    /** The `touchmove` listener: whether it calls `preventDefault` on an
        event that is, or is not, cancelable. */
    method OnTouchMove(cancelable: bool) returns (prevented: bool)
      ensures prevented <==> cancelledScroll && cancelable
    {
      prevented := false;
      if cancelledScroll && cancelable {
        prevented := true;
      }
    }

    /** `hasScrollbar`: the content overflows the container on either axis. */
    function HasScrollbar(): (r: bool)
      reads this
      ensures r <==> scrollWidth > clientWidth || scrollHeight > clientHeight
    {
      var horizontal := scrollWidth - clientWidth > 0;
      var vertical := scrollHeight - clientHeight > 0;
      horizontal || vertical
    }
  }

  /** Disabling scroll makes every cancelable touch move be swallowed and
      no other; enabling it again lets every touch move through. */
  method ScrollLockCycle(c: DraggableScrollContainer, cancelable: bool)
    returns (whileDisabled: bool, afterEnable: bool)
    modifies c
    ensures whileDisabled == cancelable
    ensures !afterEnable
    ensures c.overflow == Some("auto")
  {
    c.DisableScroll();
    whileDisabled := c.OnTouchMove(cancelable);
    c.EnableScroll();
    afterEnable := c.OnTouchMove(cancelable);
  }
}
