/**
 * The lesson screen: how a lesson's text is cut into headings, bullet
 * lists and paragraphs, how the screen finds its lesson, moves to a
 * neighbouring lesson and marks a lesson complete.
 *
 * The rendered elements are data (`Block`, `Line`) rather than views; a
 * navigation is the route it would replace the screen with.
 */
module LessonDetail {
  import opened Types
  import opened JsString
  import Storage

  /** The bullet character U+2022. */
  const Bullet: char := '\U{2022}'

  /** One line of a bullet list: a bullet item with its text, or a line shown as it is. */
  datatype Line = BulletItem(text: string) | PlainLine(text: string)

  /** One rendered piece of lesson text. */
  datatype Block = Heading(text: string) | BulletList(lines: seq<Line>) | Paragraph(text: string)

  /** `paragraph.slice(2, -2)`: the piece without its first and last two characters, empty when that leaves nothing. */
  function StripMarkers(piece: string): (text: string)
    ensures |piece| >= 4 ==> "**" + text + "**" == piece || !(StartsWith(piece, "**") && EndsWith(piece, "**"))
    ensures |piece| < 4 ==> text == ""
    ensures |text| == if |piece| >= 4 then |piece| - 4 else 0
  {
    if |piece| >= 4 then piece[2..|piece| - 2] else ""
  }

  /** One line of a piece that holds a bullet. */
  function ClassifyLine(line: string): (l: Line)
    ensures l.BulletItem? <==> StartsWith(Trim(line), [Bullet])
    ensures l.PlainLine? ==> l.text == line
    ensures l.BulletItem? ==> l.text == Trim(RemoveFirst(line, Bullet)) && |l.text| < |line|
  {
    if StartsWith(Trim(line), [Bullet]) then
      BulletItemOf(line)
    else
      PlainLine(line)
  }

  /** The bullet item for a line whose trimmed form starts with the bullet: one bullet goes, then the line is trimmed. */
  function BulletItemOf(line: string): (l: Line)
    requires StartsWith(Trim(line), [Bullet])
    ensures l == BulletItem(Trim(RemoveFirst(line, Bullet))) && |l.text| < |line|
  {
    assert Bullet in line by {
      var t := TrimStart(line);
      assert TrimEnd(t)[0] == Bullet;
      assert t[0] == Bullet;
      assert line[|line| - |t|] == Bullet;
    }
    var r := RemoveFirst(line, Bullet);
    assert |TrimEnd(TrimStart(r))| <= |TrimStart(r)| <= |r|;
    BulletItem(Trim(r))
  }

  /** One piece of text between blank lines: a heading first, else a bullet list, else a paragraph. */
  function ClassifyPiece(piece: string): (b: Block)
    ensures b.Heading? <==> StartsWith(piece, "**") && EndsWith(piece, "**")
    ensures b.Heading? && |piece| >= 4 ==> "**" + b.text + "**" == piece
    ensures b.Heading? && |piece| < 4 ==> b.text == ""
    ensures b.BulletList? <==> !b.Heading? && Includes(piece, [Bullet])
    ensures b.BulletList? ==>
      var lines := Split(piece, "\n");
      |b.lines| == |lines| && forall i :: 0 <= i < |lines| ==> b.lines[i] == ClassifyLine(lines[i])
    ensures b.Paragraph? ==> b.text == piece
  {
    if StartsWith(piece, "**") && EndsWith(piece, "**") then
      Heading(StripMarkers(piece))
    else if Includes(piece, [Bullet]) then
      var lines := Split(piece, "\n");
      BulletList(seq(|lines|, i requires 0 <= i < |lines| => ClassifyLine(lines[i])))
    else
      Paragraph(piece)
  }

  /** `renderContent` for a loaded lesson: one block per blank-line separated piece, in order. */
  function RenderContent(content: string): (blocks: seq<Block>)
    ensures var pieces := Split(content, "\n\n");
      |blocks| == |pieces| && forall i :: 0 <= i < |pieces| ==> blocks[i] == ClassifyPiece(pieces[i])
  {
    var pieces := Split(content, "\n\n");
    seq(|pieces|, i requires 0 <= i < |pieces| => ClassifyPiece(pieces[i]))
  }

  /** The text a block shows, for a heading or a paragraph. */
  function ShownText(b: Block): string {
    match b
    case Heading(t) => t
    case Paragraph(t) => t
    case BulletList(_) => ""
  }

  function ShownTexts(blocks: seq<Block>): (texts: seq<string>)
    ensures |texts| == |blocks| && forall i :: 0 <= i < |blocks| ==> texts[i] == ShownText(blocks[i])
  {
    seq(|blocks|, i requires 0 <= i < |blocks| => ShownText(blocks[i]))
  }

  /** Plain text loses nothing: when every block is a paragraph, joining them with blank lines gives the content back. */
  lemma ParagraphsRejoin(content: string)
    requires forall b :: b in RenderContent(content) ==> b.Paragraph?
    ensures Join(ShownTexts(RenderContent(content)), "\n\n") == content
  {
    var pieces := Split(content, "\n\n");
    var blocks := RenderContent(content);
    var texts := ShownTexts(blocks);
    forall i | 0 <= i < |pieces| ensures texts[i] == pieces[i] {
      assert blocks[i] in blocks;
    }
    assert texts == pieces;
    JoinSplit(content, "\n\n");
  }

  /** The route `navigation.replace` is given. */
  datatype Route = Route(moduleId: string, lessonId: string)

  /** `navigateToLesson(index)`: the lesson at `index` of the open module, or no navigation. */
  function NavigateToLesson(lessonModule: Option<LearningModule>, index: int): (r: Option<Route>)
    ensures r.Some? <==> lessonModule.Some? && 0 <= index < |lessonModule.value.lessons|
    ensures r.Some? ==> r.value.moduleId == lessonModule.value.id && r.value.lessonId == lessonModule.value.lessons[index].id
  {
    if lessonModule.Some? && 0 <= index < |lessonModule.value.lessons| then
      Some(Route(lessonModule.value.id, lessonModule.value.lessons[index].id))
    else
      None
  }

  /** The Previous button is disabled on the first lesson. */
  predicate PreviousDisabled(currentLessonIndex: int) {
    currentLessonIndex == 0
  }

  /** The Next button is disabled on the last lesson. */
  predicate NextDisabled(lessonModule: LearningModule, currentLessonIndex: int) {
    currentLessonIndex == |lessonModule.lessons| - 1
  }

  /** On a lesson of the module, a button is enabled exactly when pressing it navigates. */
  lemma ButtonsMatchNavigation(lessonModule: LearningModule, currentLessonIndex: int)
    requires 0 <= currentLessonIndex < |lessonModule.lessons|
    ensures !PreviousDisabled(currentLessonIndex) <==> NavigateToLesson(Some(lessonModule), currentLessonIndex - 1).Some?
    ensures !NextDisabled(lessonModule, currentLessonIndex) <==> NavigateToLesson(Some(lessonModule), currentLessonIndex + 1).Some?
  {
  }

  /** The first position holding `id`, or -1: the search of `find` and `findIndex` by id. */
  function FirstIndexOf(ids: seq<string>, id: string): (i: int)
    ensures -1 <= i < |ids|
    ensures i >= 0 ==> ids[i] == id
    ensures i >= 0 ==> forall j :: 0 <= j < i ==> ids[j] != id
    ensures i == -1 <==> id !in ids
    decreases |ids|
  {
    if |ids| == 0 then -1
    else if ids[0] == id then 0
    else
      var r := FirstIndexOf(ids[1..], id);
      if r == -1 then -1 else r + 1
  }

  /** The id of every item, in order: the `id` each `find`/`findIndex` callback compares. */
  function IdsOf<T>(items: seq<T>, id: T -> string): (ids: seq<string>)
    ensures |ids| == |items| && forall j :: 0 <= j < |items| ==> ids[j] == id(items[j])
  {
    seq(|items|, j requires 0 <= j < |items| => id(items[j]))
  }

  /** `modules.find(m => m.id === moduleId)`, as a position: the first module with the id, or -1 when none has it. */
  function FindModuleIndex(modules: seq<LearningModule>, moduleId: string): (i: int)
    ensures -1 <= i < |modules|
    ensures i >= 0 ==> modules[i].id == moduleId && forall j :: 0 <= j < i ==> modules[j].id != moduleId
    ensures i == -1 <==> forall j :: 0 <= j < |modules| ==> modules[j].id != moduleId
  {
    var ids := IdsOf(modules, (m: LearningModule) => m.id);
    var i := FirstIndexOf(ids, moduleId);
    assert i == -1 <==> forall j :: 0 <= j < |modules| ==> modules[j].id != moduleId by {
      if i != -1 {
        assert ids[i] == moduleId;
      } else {
        forall j | 0 <= j < |modules| ensures modules[j].id != moduleId {
          assert ids[j] in ids;
        }
      }
    }
    i
  }

  /** `lessons.findIndex(l => l.id === lessonId)`: the first lesson with the id, or -1 when none has it. */
  function FindLessonIndex(lessons: seq<Lesson>, lessonId: string): (i: int)
    ensures -1 <= i < |lessons|
    ensures i >= 0 ==> lessons[i].id == lessonId && forall j :: 0 <= j < i ==> lessons[j].id != lessonId
    ensures i == -1 <==> forall j :: 0 <= j < |lessons| ==> lessons[j].id != lessonId
  {
    var ids := IdsOf(lessons, (l: Lesson) => l.id);
    var i := FirstIndexOf(ids, lessonId);
    assert i == -1 <==> forall j :: 0 <= j < |lessons| ==> lessons[j].id != lessonId by {
      if i != -1 {
        assert ids[i] == lessonId;
      } else {
        forall j | 0 <= j < |lessons| ensures lessons[j].id != lessonId {
          assert ids[j] in ids;
        }
      }
    }
    i
  }

  /** The state of one lesson screen. */
  class LessonDetailScreen {
    var lessonModule: Option<LearningModule>
    var lesson: Lesson?
    var currentLessonIndex: int

    constructor ()
      ensures lessonModule.None? && lesson == null && currentLessonIndex == 0
    {
      lessonModule := None;
      lesson := null;
      currentLessonIndex := 0;
    }

    /**
     * `loadLesson`: opens the first module with `moduleId`; then, only if
     * that module has a lesson with `lessonId`, shows its first such lesson.
     */
    method LoadLesson(modules: seq<LearningModule>, moduleId: string, lessonId: string)
      modifies this
      ensures var m := FindModuleIndex(modules, moduleId);
        if m == -1 then
          lessonModule == old(lessonModule) && lesson == old(lesson) && currentLessonIndex == old(currentLessonIndex)
        else
          var i := FindLessonIndex(modules[m].lessons, lessonId);
          lessonModule == Some(modules[m])
          && (i == -1 ==> lesson == old(lesson) && currentLessonIndex == old(currentLessonIndex))
          && (i != -1 ==> lesson == modules[m].lessons[i] && currentLessonIndex == i)
    {
      var m := FindModuleIndex(modules, moduleId);
      if m != -1 {
        var foundModule := modules[m];
        lessonModule := Some(foundModule);
        var lessonIndex := FindLessonIndex(foundModule.lessons, lessonId);
        if lessonIndex != -1 {
          lesson := foundModule.lessons[lessonIndex];
          currentLessonIndex := lessonIndex;
        }
      }
    }

    /**
     * `markComplete`: for a shown lesson not yet completed, records the
     * lesson in the store, flags the shown lesson object itself as
     * completed and shows a fresh copy of it. Otherwise nothing happens.
     */
    method MarkComplete(store: Storage.ProgressStore)
      modifies this, lesson, store
      ensures lessonModule == old(lessonModule) && currentLessonIndex == old(currentLessonIndex)
      ensures old(lesson) == null || old(lesson.completed) ==>
        lesson == old(lesson) && store.stored == old(store.stored)
      ensures old(lesson) != null ==> old(lesson).completed
      ensures old(lesson) != null && !old(lesson.completed) ==>
        && old(lesson).completed
        && store.stored == Storage.StoredAfterMark(old(store.stored), old(lesson).id)
        && lesson != null && fresh(lesson) && lesson.completed
        && lesson.id == old(lesson).id && lesson.title == old(lesson).title
        && lesson.content == old(lesson).content && lesson.kind == old(lesson).kind
        && lesson.duration == old(lesson).duration
    {
      if lesson != null && !lesson.completed {
        store.MarkLessonComplete(lesson.id);
        lesson.completed := true;
        lesson := new Lesson.Copy(lesson);
      }
    }
  }
}
