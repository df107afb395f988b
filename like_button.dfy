// The like button's optimistic toggle: the shown state flips at once, a
// failed request flips it back, and the parent's value is only taken over
// while no request is running.
module LikeButtons {

  class LikeButton {
    /** The parent's value. */
    var isLiked: bool
    /** The value shown. */
    var localIsLiked: bool
    var isProcessing: bool
    /** The value the running request asked for. */
    var newState: bool

    /** While a request runs, the shown value is the one it asked for. */
    predicate Valid()
      reads this
    {
      isProcessing ==> localIsLiked == newState
    }

    /** The button cannot be pressed while a request runs. */
    function IsDisabled(): (disabled: bool)
      reads this
      ensures disabled <==> isProcessing
    {
      isProcessing
    }

    constructor(isLiked: bool)
      ensures Valid()
      ensures this.isLiked == isLiked && localIsLiked == isLiked && !isProcessing
    {
      this.isLiked := isLiked;
      localIsLiked := isLiked;
      isProcessing := false;
      newState := isLiked;
    }

    /** A tap: ignored while a request runs, otherwise the shown value flips
      * and the request starts. */
    method HandleToggle() returns (started: bool)
      requires Valid()
      modifies this
      ensures Valid()
      ensures started <==> !old(isProcessing)
      ensures !started ==> localIsLiked == old(localIsLiked) && isProcessing && newState == old(newState)
      ensures started ==> isProcessing && localIsLiked == !old(localIsLiked) && newState == localIsLiked
      ensures isLiked == old(isLiked)
    {
      if isProcessing {
        return false;
      }
      isProcessing := true;
      newState := !localIsLiked;
      localIsLiked := newState;
      started := true;
    }

    /** The request's answer: success keeps the flipped value, failure
      * restores the value from before the tap. */
    method ToggleFinished(success: bool)
      requires Valid() && isProcessing
      modifies this
      ensures Valid() && !isProcessing
      ensures success ==> localIsLiked == old(localIsLiked)
      ensures !success ==> localIsLiked == !old(newState)
      ensures isLiked == old(isLiked) && newState == old(newState)
    {
      if !success {
        localIsLiked := !newState;
      }
      isProcessing := false;
    }

    /** The parent passes a value: the change handler fires only when it
      * differs from the previous one, and a new value is shown only when
      * no request runs. */
    method ParentChanged(value: bool)
      requires Valid()
      modifies this
      ensures Valid()
      ensures isLiked == value
      ensures localIsLiked == (if old(isProcessing) || value == old(isLiked) then old(localIsLiked) else value)
      ensures isProcessing == old(isProcessing) && newState == old(newState)
    {
      if value != isLiked {
        isLiked := value;
        if !isProcessing {
          localIsLiked := value;
        }
      }
    }

    /** A tap on an idle button, a parent update arriving while its
      * request runs, and the answer: the update is not shown, and the
      * value ends flipped on success and back where it was on failure. */
    method TapAndSettle(parentUpdate: bool, success: bool)
      requires Valid() && !isProcessing
      modifies this
      ensures Valid() && !isProcessing && isLiked == parentUpdate
      ensures success ==> localIsLiked == !old(localIsLiked)
      ensures !success ==> localIsLiked == old(localIsLiked)
    {
      var started := HandleToggle();
      ParentChanged(parentUpdate);
      ToggleFinished(success);
    }
  }
}
