/**
 * What `VulkanEngine::destroy_swapchain` (src/vk_engine.cpp) issues: the
 * swapchain handle first, then one destroy per image view in vector order.
 * The images themselves belong to the swapchain and are never destroyed.
 */
module Teardown {
  import opened Platform

  /** One `vkDestroyImageView` per view, in the order of the vector. */
  function ViewDestroys(views: seq<ImageView>): seq<Call> {
    if views == [] then [] else [DestroyImageView(views[0])] + ViewDestroys(views[1..])
  }

  /** The calls `destroy_swapchain` issues. */
  function TeardownCalls(swapchain: Swapchain, views: seq<ImageView>): seq<Call> {
    [DestroySwapchainKHR(swapchain)] + ViewDestroys(views)
  }

  /** Destroying one more view appends one call at the end. */
  lemma {:induction false} ViewDestroysSnoc(views: seq<ImageView>, v: ImageView)
    ensures ViewDestroys(views + [v]) == ViewDestroys(views) + [DestroyImageView(v)]
    decreases |views|
  {
    if views != [] {
      assert (views + [v])[1..] == views[1..] + [v];
      ViewDestroysSnoc(views[1..], v);
    }
  }

  /** The `k`-th call of `ViewDestroys` destroys the `k`-th view, and there is one call per view. */
  lemma {:induction false} ViewDestroysAt(views: seq<ImageView>)
    ensures |ViewDestroys(views)| == |views|
    ensures forall k :: 0 <= k < |views| ==> ViewDestroys(views)[k] == DestroyImageView(views[k])
    decreases |views|
  {
    if views != [] {
      ViewDestroysAt(views[1..]);
    }
  }

  /**
   * The order of teardown: the swapchain handle first, then the view at index
   * `k` as call `k + 1`, and nothing else.
   */
  lemma TeardownOrder(swapchain: Swapchain, views: seq<ImageView>)
    ensures |TeardownCalls(swapchain, views)| == |views| + 1
    ensures TeardownCalls(swapchain, views)[0] == DestroySwapchainKHR(swapchain)
    ensures forall k :: 0 <= k < |views| ==>
              TeardownCalls(swapchain, views)[k + 1] == DestroyImageView(views[k])
  {
    ViewDestroysAt(views);
  }

  /** Each view is destroyed exactly as often as it occurs in the vector: once per entry. */
  lemma {:induction false} ViewsDestroyedOnce(views: seq<ImageView>)
    ensures forall v :: multiset(ViewDestroys(views))[DestroyImageView(v)] == multiset(views)[v]
    decreases |views|
  {
    if views != [] {
      ViewsDestroyedOnce(views[1..]);
      assert views == [views[0]] + views[1..];
    }
  }

  /** The swapchain handle is destroyed exactly once, and no call of the teardown destroys an image or anything but the swapchain and its views. */
  lemma {:induction false} TeardownDestroysNoImage(swapchain: Swapchain, views: seq<ImageView>)
    ensures multiset(TeardownCalls(swapchain, views))[DestroySwapchainKHR(swapchain)] == 1
    ensures forall c :: c in TeardownCalls(swapchain, views) ==>
              c == DestroySwapchainKHR(swapchain) || (c.DestroyImageView? && c.view in views)
    ensures forall img: Image :: DestroyImage(img) !in TeardownCalls(swapchain, views)
  {
    ViewDestroysAt(views);
    assert forall c :: c in ViewDestroys(views) ==> c.DestroyImageView? && c.view in views;
  }
}
