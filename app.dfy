/**
  The App component (src/App.jsx): the chosen video file and the list of
  error messages. Each message added gets a timer that later removes every
  message with its id; the timer firing is the explicit call
  `ExpireErrorMessage`.
*/
module App {
  import opened Wrappers
  import FileDropZone

  /** One toast: `{ id, text }`, the id being the time it was added in milliseconds. */
  datatype ErrorMessage = ErrorMessage(id: int, text: string)

  /** The timer callback's `filter((msg) => msg.id !== id)` (lines 27-29). */
  function Without(messages: seq<ErrorMessage>, id: int): (r: seq<ErrorMessage>)
    ensures |r| <= |messages|
    ensures forall m :: m in r <==> m in messages && m.id != id
    ensures (forall m :: m in messages ==> m.id != id) ==> r == messages
  {
    if messages == [] then []
    else if messages[0].id != id then [messages[0]] + Without(messages[1..], id)
    else Without(messages[1..], id)
  }

  /**
    Filtering splits over concatenation: each kept message stays where it
    was relative to the others.
  */
  lemma {:induction false} WithoutAppend(s: seq<ErrorMessage>, t: seq<ErrorMessage>, id: int)
    ensures Without(s + t, id) == Without(s, id) + Without(t, id)
  {
    if s != [] {
      assert (s + t)[1..] == s[1..] + t;
      WithoutAppend(s[1..], t, id);
    } else {
      assert s + t == t;
    }
  }

  /** A message added with a fresh id, and then expired, leaves the list as it was. */
  lemma ExpireUndoesAdd(messages: seq<ErrorMessage>, id: int, text: string)
    requires forall m :: m in messages ==> m.id != id
    ensures Without(messages + [ErrorMessage(id, text)], id) == messages
  {
    WithoutAppend(messages, [ErrorMessage(id, text)], id);
  }

  /** Two messages added in the same millisecond share an id, so one expiry removes both. */
  lemma SameMillisecondExpiresTogether(messages: seq<ErrorMessage>, id: int, first: string, second: string)
    ensures Without(messages + [ErrorMessage(id, first), ErrorMessage(id, second)], id)
         == Without(messages, id)
  {
    WithoutAppend(messages, [ErrorMessage(id, first), ErrorMessage(id, second)], id);
  }

  /** Expiring the same id twice is the same as expiring it once. */
  lemma WithoutIdempotent(messages: seq<ErrorMessage>, id: int)
    ensures Without(Without(messages, id), id) == Without(messages, id)
  {
  }

  /** Timers for different ids may fire in either order. */
  lemma {:induction false} WithoutCommutes(messages: seq<ErrorMessage>, a: int, b: int)
    ensures Without(Without(messages, a), b) == Without(Without(messages, b), a)
  {
    if messages != [] {
      WithoutCommutes(messages[1..], a, b);
    }
  }

  /** The state App keeps with `useState` (lines 10-12), and the timers it has started. */
  class AppState {
    var videoFile: Option<FileDropZone.VideoFile>
    var errorMessages: seq<ErrorMessage>
    /** The ids of the removal timers that have not fired yet. */
    var pendingExpiries: multiset<int>

    /** Every message on screen still has a timer pending that will remove it. */
    ghost predicate Valid()
      reads this
    {
      forall m :: m in errorMessages ==> m.id in pendingExpiries
    }

    constructor ()
      ensures Valid()
      ensures videoFile == None && errorMessages == [] && pendingExpiries == multiset{}
    {
      videoFile := None;
      errorMessages := [];
      pendingExpiries := multiset{};
    }

    /**
      `addErrorMessage` (lines 15-31), with the current time `id` passed in:
      the message goes at the end, and its removal timer is started.
    */
    method AddErrorMessage(id: int, error: string)
      requires Valid()
      modifies this`errorMessages, this`pendingExpiries
      ensures Valid()
      ensures errorMessages == old(errorMessages) + [ErrorMessage(id, error)]
      ensures pendingExpiries == old(pendingExpiries) + multiset{id}
    {
      errorMessages := errorMessages + [ErrorMessage(id, error)];
      pendingExpiries := pendingExpiries + multiset{id};
    }

    /**
      The timer started for `id` fires (lines 26-30): every message with that
      id goes, the others keep their order, and the timer is no longer
      pending.
    */
    method ExpireErrorMessage(id: int)
      requires Valid() && id in pendingExpiries
      modifies this`errorMessages, this`pendingExpiries
      ensures Valid()
      ensures errorMessages == Without(old(errorMessages), id)
      ensures pendingExpiries == old(pendingExpiries) - multiset{id}
    {
      errorMessages := Without(errorMessages, id);
      pendingExpiries := pendingExpiries - multiset{id};
    }

    /**
      The file drop zone, shown while no file is chosen (lines 47-51), with
      `setVideoFile` as its callback: an accepted file becomes the video
      file; a refusal is only logged, so the error messages are untouched.
    */
    method HandleFiles(files: seq<FileDropZone.VideoFile>)
      requires |files| >= 1 && videoFile == None
      modifies this`videoFile
      ensures videoFile == if |files| == 1 && files[0].mediaType == FileDropZone.Mp4 then Some(files[0]) else None
    {
      var outcome := FileDropZone.HandleFiles(files);
      if outcome.SetVideoFile? {
        videoFile := Some(outcome.file);
      }
    }
  }
}
