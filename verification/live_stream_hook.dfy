/**
 * The React hook behind the home page's stream: the same start, stop, load and
 * error transitions as the sample page, but as `status`/`isLive` state, with
 * every action a no-op while no image element is mounted, and a retry that
 * restarts the stream whatever happened in between. React's batching of state
 * updates is not modelled: each setter takes effect at once.
 */
module LiveStreamHook {
  import opened Wrappers
  import opened StreamApi

  const InitialStatus: string := "idle"

  class LiveStream {
    /** The stream address the hook was given. */
    const streamUrl: string
    /** `imgRef.current` is set: the component rendered the image element. */
    const hasImage: bool
    var status: string
    var isLive: bool
    /** The image element's `src` attribute. */
    var src: Option<string>
    /** `retryRef` holds a timer that has not been cleared or fired. */
    var retryPending: bool

    /** Without an image element nothing but the status poll can happen. */
    ghost predicate Valid()
      reads this
    {
      !hasImage ==> !isLive && src.None? && !retryPending
    }

    constructor (streamUrl: string, hasImage: bool)
      ensures Valid()
      ensures this.streamUrl == streamUrl && this.hasImage == hasImage
      ensures status == InitialStatus && !isLive && src.None? && !retryPending
    {
      this.streamUrl := streamUrl;
      this.hasImage := hasImage;
      status := InitialStatus;
      isLive := false;
      src := None;
      retryPending := false;
    }

    /** `startStream`: without an image, nothing; otherwise connect with a fresh cache-buster. */
    method StartStream(now: nat)
      requires Valid()
      modifies this`status, this`isLive, this`src, this`retryPending
      ensures Valid()
      ensures !hasImage ==> status == old(status) && isLive == old(isLive) && src == old(src)
                            && retryPending == old(retryPending)
      ensures hasImage ==> status == Connecting && !isLive && !retryPending
                           && src == Some(WithCacheBuster(streamUrl, now))
    {
      if !hasImage {
        return;
      }
      retryPending := false;
      status := Connecting;
      isLive := false;
      src := Some(WithCacheBuster(streamUrl, now));
    }

    /** `stopStream`: without an image, nothing; otherwise drop the source and show "stopped". */
    method StopStream()
      requires Valid()
      modifies this`status, this`isLive, this`src, this`retryPending
      ensures Valid()
      ensures !hasImage ==> status == old(status) && isLive == old(isLive) && src == old(src)
                            && retryPending == old(retryPending)
      ensures hasImage ==> status == Stopped && !isLive && !retryPending && src.None?
    {
      if !hasImage {
        return;
      }
      retryPending := false;
      src := None;
      status := Stopped;
      isLive := false;
    }

    /** `handleLoad`, registered only on a mounted image: the stream is live. */
    method HandleLoad()
      requires Valid() && hasImage
      modifies this`status, this`isLive
      ensures Valid()
      ensures status == Live && isLive
    {
      status := Live;
      isLive := true;
    }

    /** `handleError`, registered only on a mounted image: not live, and a retry in 2000 ms. */
    method HandleError()
      requires Valid() && hasImage
      modifies this`status, this`isLive, this`retryPending
      ensures Valid()
      ensures status == NoFrame && !isLive && retryPending
    {
      status := NoFrame;
      isLive := false;
      retryPending := true;
    }

    /**
     * The retry timer fires and restarts the stream unconditionally: a stream that
     * came live in the meantime is reconnected too, unlike on the sample page.
     */
    method OnRetryTimer(now: nat)
      requires Valid() && retryPending
      modifies this`status, this`isLive, this`src, this`retryPending
      ensures Valid()
      ensures status == Connecting && !isLive && !retryPending
      ensures src == Some(WithCacheBuster(streamUrl, now))
    {
      retryPending := false;
      StartStream(now);
    }

    /**
     * `checkStatus`: ask the status address derived from the stream address and
     * show the message the reply calls for; every failure keeps the status.
     * Returns the address asked.
     */
    method CheckStatus(reply: StatusReply) returns (statusUrl: string)
      requires Valid()
      modifies this`status
      ensures Valid()
      ensures statusUrl == StatusUrl(streamUrl)
      ensures status == AfterReply(reply, old(status))
    {
      statusUrl := StatusUrl(streamUrl);
      if !reply.Body? || reply.payload == Values.JNull {
        return;
      }
      if !PropertyTruthy(reply.payload, "publisher_initialized") {
        status := PublisherNotInitialized;
      } else if !PropertyTruthy(reply.payload, "has_frame") {
        status := WaitingForFrame;
      }
    }
  }
}
