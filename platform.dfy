/**
 * What the chat engine takes from the Android platform and the JDK without
 * defining it: timestamps, decoded bitmaps, the outcome of a network fetch,
 * the URL matcher, and the adapter's re-render signal.
 */
module Platform {
  import opened Wrappers

  /** Milliseconds since the epoch, as `java.util.Date.getTime()` returns them. */
  type Millis = int

  /** A decoded bitmap; only its pixel size matters to the engine. */
  datatype Bitmap = Bitmap(id: nat, width: int, height: int)

  /**
   * Outcome of opening a URL and decoding its bytes: an `IOException`, or
   * whatever `BitmapFactory.decodeStream` returned (`None` is its null for
   * undecodable data).
   */
  datatype Fetched = IoFailure | Decoded(bitmap: Option<Bitmap>)

  /**
   * Library functions the engine calls but does not define:
   * `Patterns.WEB_URL.matcher(s).matches()` and
   * `Uri.parse(s).getLastPathSegment()`.
   */
  datatype Env = Env(isWebUrl: string -> bool, lastPathSegment: string -> Option<string>)

  /**
   * `BaseAdapter.notifyDataSetChanged()`: every call asks the list view to
   * re-render; the model counts them.
   */
  class Notifier {
    var notifications: nat

    constructor ()
      ensures notifications == 0
    {
      notifications := 0;
    }

    method NotifyDataSetChanged()
      modifies this
      ensures notifications == old(notifications) + 1
    {
      notifications := notifications + 1;
    }
  }
}
