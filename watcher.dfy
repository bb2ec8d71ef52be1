/**
 * The folder watcher (app/watcher.py). `VideoFileHandler.on_created` turns
 * a file-creation event into at most one callback invocation: directories
 * are ignored, the lower-cased suffix must be a video extension, the file
 * must still exist after the settle delay, and the path must not already be
 * in flight. `FolderWatcher` owns one handler and one observer thread.
 *
 * The file system is the set of paths that exist when they are checked;
 * the two sleeps do nothing here. The callback is abstract: the handler
 * reports whether it called it and with which path, and whether it raised.
 */
module Watcher {
  import opened Results
  import opened Paths

  /** The extensions a handler built without its own set accepts. */
  const DefaultVideoExtensions: set<string> :=
    {".mp4", ".avi", ".mkv", ".mov", ".flv", ".wmv", ".m4v", ".webm", ".mpg", ".mpeg"}

  /** `video_extensions or {...}`: a missing or empty set falls back to the defaults. */
  function EffectiveExtensions(supplied: Option<set<string>>): (r: set<string>)
    ensures r != {}
    ensures supplied.Some? && supplied.value != {} ==> r == supplied.value
    ensures supplied.None? || supplied.value == {} ==> r == DefaultVideoExtensions
  {
    if supplied.Some? && supplied.value != {} then supplied.value else DefaultVideoExtensions
  }

  /** A watchdog `FileCreatedEvent` or `DirCreatedEvent`. */
  datatype CreatedEvent = CreatedEvent(srcPath: string, isDirectory: bool)

  /**
   * `Path(path).suffix.lower() in self.video_extensions`. A set without the
   * empty extension never takes a path whose name has no extension.
   */
  predicate IsVideoPath(path: string, extensions: set<string>)
    ensures IsVideoPath(path, extensions) && "" !in extensions ==> Suffix(path) != "" && !NoExtension(Name(path))
  {
    Lower(Suffix(path)) in extensions
  }

  /**
   * Whether `on_created` hands the event's path to the callback. With no
   * empty extension in the set, a path without a suffix (`clip`, `.mp4`,
   * `a.`) is never handed on.
   */
  predicate Delivers(event: CreatedEvent, extensions: set<string>, existing: set<string>, inFlight: set<string>)
    ensures Delivers(event, extensions, existing, inFlight) && "" !in extensions ==>
      Suffix(event.srcPath) != "" && !NoExtension(Name(event.srcPath))
  {
    && !event.isDirectory
    && IsVideoPath(event.srcPath, extensions)
    && event.srcPath in existing
    && event.srcPath !in inFlight
  }

  /** What one `on_created` call did with the callback. */
  datatype Delivery = Skipped | Delivered(path: string, raised: bool)

  class VideoFileHandler {
    const videoExtensions: set<string>
    var processingFiles: set<string>

    /** `VideoFileHandler(callback, video_extensions)`. */
    constructor (supplied: Option<set<string>>)
      ensures videoExtensions == EffectiveExtensions(supplied)
      ensures processingFiles == {}
    {
      videoExtensions := EffectiveExtensions(supplied);
      processingFiles := {};
    }

    /**
     * `on_created(event)`. `existing` is the set of paths that exist once
     * the settle delay is over; `callbackRaises` says whether the callback
     * ends with an exception, which `on_created` passes on after its
     * `finally` clause. `heldWhileCalled` is the in-flight set at the
     * moment the callback runs.
     */
    method OnCreated(event: CreatedEvent, existing: set<string>, callbackRaises: bool)
      returns (r: Delivery, ghost heldWhileCalled: set<string>)
      modifies this
      ensures r.Delivered? <==> Delivers(event, videoExtensions, existing, old(processingFiles))
      ensures r.Delivered? ==> r.path == event.srcPath && r.raised == callbackRaises
      ensures r.Delivered? ==> heldWhileCalled == old(processingFiles) + {event.srcPath}
      ensures processingFiles == old(processingFiles)
    {
      heldWhileCalled := processingFiles;
      if event.isDirectory {
        return Skipped, heldWhileCalled;
      }
      var filePath := event.srcPath;
      var fileExt := Lower(Suffix(filePath));
      if fileExt !in videoExtensions {
        return Skipped, heldWhileCalled;
      }
      if filePath in existing && filePath !in processingFiles {
        processingFiles := processingFiles + {filePath};
        heldWhileCalled := processingFiles;
        // the callback runs here; it may raise, and the `finally` clause still runs
        r := Delivered(filePath, callbackRaises);
        processingFiles := processingFiles - {filePath};
      } else {
        r := Skipped;
      }
    }
  }

  /**
   * Two creation events for the same path handled one after the other are
   * both delivered when the first is: the in-flight set is empty again by
   * the time the second event is handled, so only overlapping calls are
   * kept apart by it.
   */
  method RepeatedEvent(h: VideoFileHandler, event: CreatedEvent, existing: set<string>)
    returns (first: Delivery, second: Delivery)
    modifies h
    ensures first.Delivered? <==> second.Delivered?
    ensures first.Delivered? <==> Delivers(event, h.videoExtensions, existing, old(h.processingFiles))
    ensures h.processingFiles == old(h.processingFiles)
  {
    ghost var held;
    first, held := h.OnCreated(event, existing, false);
    second, held := h.OnCreated(event, existing, false);
  }

  /** Directory events never reach the callback. */
  lemma DirectoriesNeverDelivered(event: CreatedEvent, extensions: set<string>, existing: set<string>, inFlight: set<string>)
    requires event.isDirectory
    ensures !Delivers(event, extensions, existing, inFlight)
  {
  }

  /** The extension test ignores case: a path ending in `.MP4` passes the default set. */
  lemma UpperCaseSuffixPasses(path: string)
    requires Suffix(path) == ".MP4"
    ensures IsVideoPath(path, DefaultVideoExtensions)
  {
    LowerUpperMp4();
  }

  /** `".MP4".lower()` is one of the default extensions. */
  lemma LowerUpperMp4()
    ensures Lower(".MP4") == ".mp4" && ".mp4" in DefaultVideoExtensions
  {
    var lowered := Lower(".MP4");
    assert LowerChar('.') == '.' && LowerChar('M') == 'm' && LowerChar('P') == 'p' && LowerChar('4') == '4';
    assert lowered == ".mp4";
  }

  /** The state of `FolderWatcher.observer`. */
  datatype ObserverState = Unset | Alive | Joined

  datatype WatchError = FolderMissing(folder: string)

  class FolderWatcher {
    const folderPath: string
    var observer: ObserverState
    var handler: VideoFileHandler?

    /** `FolderWatcher(folder_path, callback)`. */
    constructor (folderPath: string)
      ensures this.folderPath == folderPath
      ensures observer == Unset && handler == null
    {
      this.folderPath := folderPath;
      observer := Unset;
      handler := null;
    }

    /**
     * `start()`: refuses a folder that does not exist, leaving the watcher
     * as it was; otherwise installs a fresh handler with the default
     * extensions and a running observer.
     */
    method Start(existing: set<string>) returns (r: Outcome<WatchError>)
      modifies this
      ensures folderPath !in existing ==> r == Fail(FolderMissing(folderPath)) && observer == old(observer) && handler == old(handler)
      ensures folderPath in existing ==> r == Pass && observer == Alive && IsRunning() && handler != null && fresh(handler)
      ensures folderPath in existing ==> handler.videoExtensions == DefaultVideoExtensions && handler.processingFiles == {}
    {
      if folderPath !in existing {
        return Fail(FolderMissing(folderPath));
      }
      handler := new VideoFileHandler(None);
      observer := Alive;
      r := Pass;
    }

    /** `stop()`: stops and joins the observer when there is one; does nothing otherwise. */
    method Stop()
      modifies this
      ensures observer == if old(observer) == Unset then Unset else Joined
      ensures !IsRunning()
      ensures handler == old(handler)
    {
      if observer != Unset {
        observer := Joined;
      }
    }

    /** `is_running()`: an observer is set and its thread is alive. */
    predicate IsRunning()
      reads this
      ensures IsRunning() ==> observer != Unset && observer != Joined
    {
      observer == Alive
    }
  }
}
