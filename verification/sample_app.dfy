/**
 * The plain sample page: an address box, start and stop buttons, the stream
 * image and a status line. Its script keeps a `live` flag and one retry timer;
 * the image's load and error events, the timer and the periodic status poll
 * are the events that change the page. The text of the address box and the
 * clock reading are passed in where the script reads them.
 */
module SampleApp {
  import opened Wrappers
  import opened StreamApi

  /** `setStatus`: the status line shows the message after a fixed prefix. */
  function StatusLine(message: string): (line: string)
    ensures |line| == |"Status: "| + |message| && line[|"Status: "|..] == message
  {
    "Status: " + message
  }

  class SamplePage {
    /** The `live` flag: the last image event was a successful load. */
    var live: bool
    /** The text of the status element. */
    var statusText: string
    /** The image's `src` attribute, absent after a stop. */
    var src: Option<string>
    /** A retry timer has been scheduled and not cleared or fired. */
    var retryPending: bool

    constructor (statusText: string)
      ensures !live && this.statusText == statusText && src.None? && !retryPending
    {
      live := false;
      this.statusText := statusText;
      src := None;
      retryPending := false;
    }

    /**
     * `startStream`: cancel the retry, point the image at the normalised address
     * with a fresh cache-buster, and show "connecting...".
     */
    method StartStream(input: string, now: nat)
      modifies this
      ensures !live && !retryPending && statusText == StatusLine(Connecting)
      ensures src == Some(WithCacheBuster(NormalizedStreamUrl(input), now))
    {
      retryPending := false;
      var url := NormalizedStreamUrl(input);
      var withCacheBuster := WithCacheBuster(url, now);
      live := false;
      statusText := StatusLine(Connecting);
      src := Some(withCacheBuster);
    }

    /** `stopStream`: cancel the retry, drop the image source and show "stopped". */
    method StopStream()
      modifies this
      ensures !live && !retryPending && src.None? && statusText == StatusLine(Stopped)
    {
      retryPending := false;
      live := false;
      src := None;
      statusText := StatusLine(Stopped);
    }

    /** The image loaded a frame: the stream is live. */
    method OnLoad()
      modifies this`live, this`statusText
      ensures live && statusText == StatusLine(Live)
    {
      live := true;
      statusText := StatusLine(Live);
    }

    /** The image failed: not live, and a retry is scheduled in 2000 ms. */
    method OnError()
      modifies this`live, this`statusText, this`retryPending
      ensures !live && retryPending && statusText == StatusLine(NoFrame)
    {
      live := false;
      statusText := StatusLine(NoFrame);
      retryPending := true;
    }

    /**
     * The retry timer fires: the stream is restarted only if it has not come
     * live in the meantime; a live page is left exactly as it was.
     */
    method OnRetryTimer(input: string, now: nat)
      requires retryPending
      modifies this
      ensures !retryPending
      ensures old(live) ==> live && statusText == old(statusText) && src == old(src)
      ensures !old(live) ==> !live && statusText == StatusLine(Connecting)
                             && src == Some(WithCacheBuster(NormalizedStreamUrl(input), now))
    {
      retryPending := false;
      if !live {
        StartStream(input, now);
      }
    }

    /**
     * `refreshStatusFromApi`: ask the status address derived from the stream
     * address, and show the message the reply calls for; every failure keeps
     * the current status line. Returns the address asked.
     */
    method RefreshStatus(input: string, reply: StatusReply) returns (statusUrl: string)
      modifies this`statusText
      ensures statusUrl == StatusUrl(NormalizedStreamUrl(input))
      ensures StatusMessage(reply).None? ==> statusText == old(statusText)
      ensures StatusMessage(reply).Some? ==> statusText == StatusLine(StatusMessage(reply).value)
    {
      var streamUrl := NormalizedStreamUrl(input);
      statusUrl := StatusUrl(streamUrl);
      if !reply.Body? || reply.payload == Values.JNull {
        return;
      }
      if !PropertyTruthy(reply.payload, "publisher_initialized") {
        statusText := StatusLine(PublisherNotInitialized);
        return;
      }
      if !PropertyTruthy(reply.payload, "has_frame") {
        statusText := StatusLine(WaitingForFrame);
      }
    }
  }
}
