/**
 * The extras video gallery screen (`ExtrasVideoGalleryViewController`): a table of the
 * experience's child clips, a detail area (video container, title, description,
 * runtime, share button) and an embedded video player. Selecting a row fills the
 * detail area and hands the clip, its index and the clip count to the player; the
 * player's "will play next item" notification selects the next row the same way.
 *
 * UIKit views become booleans and optional texts; the embedded player is the part of
 * its state the gallery writes, plus a log of the commands the gallery sends it.
 */
module VideoGallery {
  import opened Basics

  /** One child experience as the gallery reads it (metadata title and description, runtime, video URL). */
  datatype ChildExperience = ChildExperience(
    title: Option<string>, description: Option<string>, runtime: int, videoUrl: Option<Url>)

  /** The commands the gallery sends to the embedded player, in the order it sends them. */
  datatype PlayerCommand = RemoveAllItems | PlayVideo(url: Url)

  /** The part of the embedded player's state the gallery reads and writes. */
  datatype PlayerState = PlayerState(
    curIndex: int, indexMax: int, controlsVisible: bool, lockTopToolbar: bool,
    hasQueue: bool, commands: seq<PlayerCommand>)

  /**
   * What the gallery does to its player to start clip `row` of `count`: the queue (if the
   * player has one) is emptied, the index and count are handed over, the controls are
   * hidden and the top toolbar locked, and the clip is played. Whether the player has a
   * queue is read afresh on every call; the gallery itself never creates one (the player
   * does, later, in `VideoPlayer.PrepareToPlay`).
   */
  function StartClip(s: PlayerState, row: int, count: int, url: Url): (t: PlayerState)
    ensures 0 <= row < count ==> 0 <= t.curIndex < t.indexMax
    ensures t.curIndex == row && t.indexMax == count
    ensures !t.controlsVisible && t.lockTopToolbar && t.hasQueue == s.hasQueue
    ensures |t.commands| > |s.commands| && t.commands[..|s.commands|] == s.commands
    ensures |t.commands| == |s.commands| + (if s.hasQueue then 2 else 1)
    ensures t.commands[|t.commands| - 1] == PlayVideo(url)
    ensures s.hasQueue ==> t.commands[|t.commands| - 2] == RemoveAllItems
  {
    var cleared := if s.hasQueue then s.commands + [RemoveAllItems] else s.commands;
    PlayerState(row, count, false, true, s.hasQueue, cleared + [PlayVideo(url)])
  }

  /** The embedded `VideoPlayerViewController`. */
  class VideoPlayer {
    var curIndex: int
    var indexMax: int
    var playerControlsVisible: bool
    var lockTopToolbar: bool
    /** The player's `player` object exists (the gallery empties its queue only then). */
    var hasQueue: bool
    var commands: seq<PlayerCommand>

    constructor (hasQueue: bool)
      ensures State() == PlayerState(0, 0, false, false, hasQueue, [])
    {
      curIndex, indexMax := 0, 0;
      playerControlsVisible, lockTopToolbar := false, false;
      this.hasQueue := hasQueue;
      commands := [];
    }

    function State(): PlayerState
      reads this
    {
      PlayerState(curIndex, indexMax, playerControlsVisible, lockTopToolbar, hasQueue, commands)
    }

    /**
     * An abstract step of the player's own: at some point after a clip is requested the
     * player gets its `player` object, creating one if it has none, so a later selection
     * finds a queue to empty. The player version this gallery drives is not part of this
     * model; the step follows the later player's `prepareToPlay`, which creates its
     * `AVPlayer` when it has none. Nothing else the gallery reads changes.
     */
    method PrepareToPlay()
      modifies this
      ensures hasQueue
      ensures State() == old(State()).(hasQueue := true)
    {
      hasQueue := true;
    }
  }

  /** A child view controller of the gallery: the video player or something else. */
  datatype ChildController = PlayerChild(player: VideoPlayer) | OtherChild

  /** `videoPlayerViewController()` as a specification: the first player among the children. */
  function FirstPlayer(cs: seq<ChildController>): (p: Option<VideoPlayer>)
    ensures p.Some? ==> exists i :: 0 <= i < |cs| && cs[i] == PlayerChild(p.value) &&
                                    (forall j :: 0 <= j < i ==> !cs[j].PlayerChild?)
    ensures p.None? ==> forall i :: 0 <= i < |cs| ==> !cs[i].PlayerChild?
  {
    if cs == [] then None
    else if cs[0].PlayerChild? then Some(cs[0].player)
    else
      var p := FirstPlayer(cs[1..]);
      assert p.Some? ==> exists i :: 0 <= i < |cs[1..]| && cs[1..][i] == PlayerChild(p.value) &&
                                     (forall j :: 0 <= j < i ==> !cs[1..][j].PlayerChild?);
      p
  }

  /** The detail widgets: visibility flags and label texts. */
  datatype DetailArea = DetailArea(
    videoContainerHidden: bool, titleHidden: bool, descriptionHidden: bool,
    runtimeHidden: bool, shareHidden: bool,
    titleText: Option<string>, descriptionText: Option<string>, runtimeText: Option<string>)

  const RuntimePrefix := "Runtime: "

  /**
   * The detail widgets after a child is selected: everything is shown except that the
   * runtime label is shown only for a positive runtime; the texts are the child's.
   */
  function ShowChild(w: DetailArea, child: ChildExperience, timeString: int -> string): (v: DetailArea)
    ensures !v.videoContainerHidden && !v.titleHidden && !v.descriptionHidden && !v.shareHidden
    ensures v.runtimeHidden <==> child.runtime <= 0
    ensures v.titleText == child.title && v.descriptionText == child.description
    ensures child.runtime > 0 ==> v.runtimeText == Some(RuntimePrefix + timeString(child.runtime))
    ensures child.runtime <= 0 ==> v.runtimeText == w.runtimeText
  {
    DetailArea(false, false, false, child.runtime <= 0, false, child.title, child.description,
      if child.runtime > 0 then Some(RuntimePrefix + timeString(child.runtime)) else w.runtimeText)
  }

  /**
   * The guard of the next-item observer as written: only an upper bound, so besides
   * every row it also admits every negative index.
   */
  predicate NextItemGuardAsWritten(index: int, count: int): (b: bool)
    ensures NextItemGuard(index, count) ==> b
    ensures index < 0 && count >= 0 ==> b
  {
    index < count
  }

  /** The guard the next-item observer needs before indexing the children: the index is a row. */
  predicate NextItemGuard(index: int, count: int) {
    0 <= index < count
  }

  /** The guard as written lets a negative index through, which is not a row of any list. */
  lemma AsWrittenGuardAdmitsNegativeIndex(count: nat)
    ensures NextItemGuardAsWritten(-1, count) && !NextItemGuard(-1, count)
  {
  }

  /** The two guards agree on every index that is not negative. */
  lemma GuardsAgreeOnNaturals(index: int, count: int)
    requires index >= 0
    ensures NextItemGuard(index, count) <==> NextItemGuardAsWritten(index, count)
  {
  }

  class Gallery {
    /** `experience.childExperiences` */
    const children: seq<ChildExperience>
    /** `childViewControllers` */
    const childControllers: seq<ChildController>
    /** The runtime formatter (`timeString()`), which lives outside this screen. */
    const timeString: int -> string

    /** The table view's selected row. */
    var selectedRow: Option<int>
    var shareContent: Option<Url>

    var videoContainerHidden: bool
    var mediaTitleHidden: bool
    var mediaDescriptionHidden: bool
    var mediaRuntimeHidden: bool
    var shareClipHidden: bool
    var mediaTitleText: Option<string>
    var mediaDescriptionText: Option<string>
    var mediaRuntimeText: Option<string>

    ghost predicate Valid()
      reads this
    {
      selectedRow.Some? ==> 0 <= selectedRow.value < |children|
    }

    /** The players among the child view controllers. */
    ghost function Players(): set<VideoPlayer> {
      set c | c in childControllers && c.PlayerChild? :: c.player
    }

    function Detail(): DetailArea
      reads this
    {
      DetailArea(videoContainerHidden, mediaTitleHidden, mediaDescriptionHidden, mediaRuntimeHidden,
        shareClipHidden, mediaTitleText, mediaDescriptionText, mediaRuntimeText)
    }

    /**
     * The screen after `viewDidLoad`: nothing selected and the whole detail area hidden.
     * The label texts are whatever the storyboard gave them.
     */
    constructor (children: seq<ChildExperience>, childControllers: seq<ChildController>, timeString: int -> string,
                 titleText: Option<string>, descriptionText: Option<string>, runtimeText: Option<string>)
      ensures Valid()
      ensures this.children == children && this.childControllers == childControllers
      ensures this.timeString == timeString
      ensures selectedRow == None && shareContent == None
      ensures Detail() == DetailArea(true, true, true, true, true, titleText, descriptionText, runtimeText)
    {
      this.children := children;
      this.childControllers := childControllers;
      this.timeString := timeString;
      selectedRow := None;
      shareContent := None;
      videoContainerHidden := true;
      mediaTitleHidden := true;
      mediaDescriptionHidden := true;
      mediaRuntimeHidden := true;
      shareClipHidden := true;
      mediaTitleText, mediaDescriptionText, mediaRuntimeText := titleText, descriptionText, runtimeText;
    }

    /** `numberOfRowsInSection`: one row per child, and the children never change. */
    function NumberOfRows(): (n: nat)
      ensures n == |children|
    {
      |children|
    }

    /** `videoPlayerViewController()`: walks the child view controllers for the first player. */
    method VideoPlayerViewController() returns (p: Option<VideoPlayer>)
      ensures p == FirstPlayer(childControllers)
      ensures p.Some? ==> p.value in Players()
    {
      var i := 0;
      while i < |childControllers|
        invariant 0 <= i <= |childControllers|
        invariant FirstPlayer(childControllers[i..]) == FirstPlayer(childControllers)
      {
        if childControllers[i].PlayerChild? {
          return Some(childControllers[i].player);
        }
        assert childControllers[i..][1..] == childControllers[i + 1..];
        i := i + 1;
      }
      return None;
    }

    /**
     * `willSelectRowAtIndexPath`: a row is accepted only when its cell exists and is not
     * already selected; otherwise the selection is refused.
     */
    method WillSelectRow(row: int, cellExists: bool) returns (r: Option<int>)
      ensures r.Some? ==> r.value == row
      ensures r.Some? <==> cellExists && selectedRow != Some(row)
    {
      if cellExists {
        if selectedRow != Some(row) {
          return Some(row);
        }
      }
      return None;
    }

    /** What selecting `row` does to the players and the share content (used by the method contracts). */
    twostate predicate PlayerFollowsSelection(row: int)
      reads this, Players()
      requires 0 <= row < |children|
    {
      var url := children[row].videoUrl;
      var p := FirstPlayer(childControllers);
      if url.Some? && p.Some? then
        && p.value.State() == StartClip(old(p.value.State()), row, |children|, url.value)
        && shareContent == url
        && forall q :: q in Players() && q != p.value ==> unchanged(q)
      else
        && shareContent == old(shareContent)
        && forall q :: q in Players() ==> unchanged(q)
    }

    /**
     * `didSelectRowAtIndexPath`: shows the detail area for the child and, when the child
     * has a video and there is a player, starts the clip there and shares its URL.
     * The row count is handed to the player as an `Int32`.
     */
    method DidSelectRow(row: int)
      requires Valid()
      requires 0 <= row < |children| && |children| <= Int32Max
      modifies this, Players()
      ensures Valid()
      ensures selectedRow == old(selectedRow)
      ensures Detail() == ShowChild(old(Detail()), children[row], timeString)
      ensures PlayerFollowsSelection(row)
    {
      videoContainerHidden := false;
      mediaTitleHidden := false;
      mediaDescriptionHidden := false;
      mediaRuntimeHidden := false;
      shareClipHidden := false;

      var thisExperience := children[row];
      mediaTitleText := thisExperience.title;
      mediaDescriptionText := thisExperience.description;
      var runtime := thisExperience.runtime;
      if runtime > 0 {
        mediaRuntimeHidden := false;
        mediaRuntimeText := Some(RuntimePrefix + timeString(runtime));
      } else {
        mediaRuntimeHidden := true;
      }

      if thisExperience.videoUrl.Some? {
        var videoUrl := thisExperience.videoUrl.value;
        var player := VideoPlayerViewController();
        if player.Some? {
          StartClipOn(player.value, row, |children|, videoUrl);
          shareContent := Some(videoUrl);
        }
      }
    }

    /** The player updates of did-select, for the player found among the children. */
    static method StartClipOn(videoPlayer: VideoPlayer, row: int, count: int, videoUrl: Url)
      modifies videoPlayer
      ensures videoPlayer.State() == StartClip(old(videoPlayer.State()), row, count, videoUrl)
    {
      if videoPlayer.hasQueue {
        videoPlayer.commands := videoPlayer.commands + [RemoveAllItems];
      }
      videoPlayer.curIndex := row;
      videoPlayer.indexMax := count;
      videoPlayer.playerControlsVisible := false;
      videoPlayer.lockTopToolbar := true;
      videoPlayer.commands := videoPlayer.commands + [PlayVideo(videoUrl)];
    }

    /**
     * A tap on a row, as UIKit runs it: the will-select answer decides; an accepted row
     * becomes the selection and is handled by did-select, a refused tap changes nothing.
     */
    method SelectRowByTap(row: int, cellExists: bool)
      requires Valid()
      requires 0 <= row < |children| && |children| <= Int32Max
      modifies this, Players()
      ensures Valid()
      ensures old(cellExists && selectedRow != Some(row)) ==>
        && selectedRow == Some(row)
        && Detail() == ShowChild(old(Detail()), children[row], timeString)
        && PlayerFollowsSelection(row)
      ensures !old(cellExists && selectedRow != Some(row)) ==>
        unchanged(this) && forall q :: q in Players() ==> unchanged(q)
    {
      var accepted := WillSelectRow(row, cellExists);
      if accepted.Some? {
        selectedRow := Some(row);
        DidSelectRow(row);
      }
    }

    /**
     * The "will play next item" observer: a notification carrying a row index selects
     * that row and runs did-select; one without an index, or whose index is not a row,
     * changes nothing.
     */
    method OnWillPlayNextItem(index: Option<int>)
      requires Valid()
      requires |children| <= Int32Max
      modifies this, Players()
      ensures Valid()
      ensures index.Some? && NextItemGuard(index.value, |children|) ==>
        && selectedRow == Some(index.value)
        && Detail() == ShowChild(old(Detail()), children[index.value], timeString)
        && PlayerFollowsSelection(index.value)
      ensures !(index.Some? && NextItemGuard(index.value, |children|)) ==>
        unchanged(this) && forall q :: q in Players() ==> unchanged(q)
    {
      if index.Some? && NextItemGuard(index.value, |children|) {
        selectedRow := Some(index.value);
        DidSelectRow(index.value);
      }
    }
  }
}
