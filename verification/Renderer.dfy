/**
  The renderer: it scans the text for tags and renders the body of a section by scanning it again,
  without building a tree (ground/gcs/src/libs/utils/mustache.cpp).
 */
module Renderer {
  import opened Tags
  import opened TagOrder
  import opened HtmlEscape
  import opened Templates
  import TemplateLaws
  import opened TemplateScan

  class Context {
    var contextStack: seq<Data>

    constructor (root: Data)
      ensures contextStack == [root]
    {
      contextStack := [root];
    }

    /** value: the innermost value for a key. */
    method Value(key: string) returns (value: Data)
      ensures value == ValueOf(contextStack, key)
    {
      if key == "." && contextStack != [] {
        return contextStack[|contextStack| - 1];
      }
      var keyPath := Split(key);
      var i := |contextStack|;
      assert contextStack[..i] == contextStack;
      while i > 0
        invariant 0 <= i <= |contextStack|
        invariant Lookup(contextStack, keyPath) == Lookup(contextStack[..i], keyPath)
      {
        i := i - 1;
        value := KeyPathValue(contextStack[i], keyPath);
        assert contextStack[..i + 1][..i] == contextStack[..i];
        if !value.Nothing? {
          return;
        }
      }
      return Nothing;
    }

    method IsFalseKey(key: string) returns (b: bool)
      ensures b == IsFalse(ValueOf(contextStack, key))
    {
      var value := Value(key);
      b := IsFalse(value);
    }

    method StringValue(key: string) returns (s: string)
      ensures s == StringOf(ValueOf(contextStack, key))
    {
      var false_ := IsFalseKey(key);
      if false_ {
        return "";
      }
      var value := Value(key);
      s := StringOf(value);
    }

    method ListCount(key: string) returns (n: nat)
      ensures var v := ValueOf(contextStack, key); n == if v.List? then |v.items| else 0
    {
      var value := Value(key);
      n := if value.List? then |value.items| else 0;
    }

    /** Push the value of a key, or one item of a list. */
    method Push(key: string, index: int)
      requires index >= -1
      modifies this
      ensures var v := ValueOf(old(contextStack), key);
              contextStack == old(contextStack) +
                [if index == -1 then v else if v.List? && index < |v.items| then v.items[index] else Nothing]
    {
      var mapItem := Value(key);
      if index == -1 {
        contextStack := contextStack + [mapItem];
      } else {
        contextStack := contextStack
          + [if mapItem.List? && index < |mapItem.items| then mapItem.items[index] else Nothing];
      }
    }

    method Pop()
      requires contextStack != []
      modifies this
      ensures contextStack == old(contextStack)[..|old(contextStack)| - 1]
    {
      contextStack := contextStack[..|contextStack| - 1];
    }
  }

  // ------------------------------------------------------------------ the tag scanner

  /** readTagName */
  method ReadTagName(content: string, start: nat, endPos: nat) returns (name: string)
    requires start <= endPos < |content| && !IsSpace(content[endPos])
    ensures name == TagName(content, start, endPos)
  {
    var pos := start;
    while IsSpace(content[pos])
      invariant start <= pos <= endPos && SkipSpace(content, start) == SkipSpace(content, pos)
      decreases endPos - pos
    {
      pos := pos + 1;
    }
    name := "";
    ghost var first := pos;
    while !IsSpace(content[pos]) && pos < endPos
      invariant first <= pos <= endPos && name + Word(content, pos, endPos) == Word(content, first, endPos)
      decreases endPos - pos
    {
      name := name + [content[pos]];
      pos := pos + 1;
    }
  }

  /** expandTag */
  method ExpandTag(tag: Tag, content: string) returns (t: Tag)
    requires tag.start <= |content| && 0 < tag.end <= |content| + 1
    ensures t == Widened(tag, content)
  {
    var start, end := tag.start, tag.end;
    while start > 0 && content[start - 1] != '\n'
      invariant 0 <= start <= tag.start && LineStart(content, start) == LineStart(content, tag.start)
      invariant AllSpace(content, start, tag.start)
    {
      start := start - 1;
      if !IsSpace(content[start]) {
        return tag;
      }
    }
    while end <= |content| && content[end - 1] != '\n'
      invariant tag.end <= end <= |content| + 1 && LineEnd(content, end) == LineEnd(content, tag.end)
      invariant AllSpace(content, tag.end, end)
      decreases |content| + 1 - end
    {
      if end < |content| && !IsSpace(content[end]) {
        return tag;
      }
      end := end + 1;
    }
    t := tag.(start := start, end := end);
  }

  /** findTag.  The library searches are the function IndexOf. */
  method ScanTag(content: string, from: nat, limit: nat) returns (tag: Tag)
    ensures tag == FindTag(content, from, limit)
  {
    var tagStartPos := IndexOf(content, "{{", from);
    if tagStartPos > |content| || tagStartPos >= limit {
      return NO_TAG;
    }
    var tagEndPos := IndexOf(content, "}}", tagStartPos + 2);
    if tagEndPos > |content| {
      return NO_TAG;
    }
    tag := ReadTag(content, tagStartPos, tagEndPos);
    if tag.kind != Value {
      tag := ExpandTag(tag, content);
    }
  }

  method ReadTag(content: string, tagStartPos: nat, endPos: nat) returns (tag: Tag)
    requires tagStartPos + 2 <= endPos && HasAt(content, "{{", tagStartPos) && HasAt(content, "}}", endPos)
    ensures tag == Marked(content, tagStartPos, endPos)
  {
    ClosingBrace(content, endPos);
    var pos := tagStartPos + 2;
    tag := Tag(Value, "", tagStartPos, endPos + 2, Escape);
    var typeChar := content[pos];
    var key;
    if typeChar == '#' {
      key := ReadTagName(content, pos + 1, endPos);
      tag := tag.(kind := SectionStart, key := key);
    } else if typeChar == '^' {
      key := ReadTagName(content, pos + 1, endPos);
      tag := tag.(kind := InvertedSectionStart, key := key);
    } else if typeChar == '/' {
      key := ReadTagName(content, pos + 1, endPos);
      tag := tag.(kind := SectionEnd, key := key);
    } else if typeChar == '!' {
      tag := tag.(kind := Comment);
    } else if typeChar == '>' {
      key := ReadTagName(content, pos + 1, endPos);
      tag := tag.(kind := Partial, key := key);
    } else if typeChar == '=' {
      tag := tag.(kind := SetDelimiter);
    } else {
      var nameEnd := endPos;
      if typeChar == '&' {
        tag := tag.(mode := Unescape);
        pos := pos + 1;
      } else if typeChar == '{' {
        tag := tag.(mode := Raw);
        pos := pos + 1;
        CloseBrace(content, tagStartPos, endPos);
        var endTache := IndexOf(content, "}", pos);
        if endTache == tag.end - 2 {
          tag := tag.(end := tag.end + 1);
        } else {
          nameEnd := endTache;
        }
      }
      key := ReadTagName(content, pos, nameEnd);
      tag := tag.(key := key);
    }
  }

  // ------------------------------------------------------------------ the renderer

  /** One round of the render loop. */
  lemma ScanStep(s: string, pos: nat, endPos: nat, tag: Tag, stack: seq<Data>)
    requires Boundary(s, pos) && tag == FindTag(s, pos, endPos)
    ensures tag.kind == Null ==> Eval(Scan(s, pos, endPos), stack) == Outcome(Mid(s, pos, endPos), -1)
    ensures tag.kind != Null ==> Follows(s, pos, endPos, tag)
    ensures tag.kind != Null ==>
      var o := EvalNode(TagNode(s, tag, endPos), stack);
      Eval(Scan(s, pos, endPos), stack) ==
      if o.errorPos != -1 then Outcome(Mid(s, pos, tag.start) + o.text, o.errorPos)
      else Outcome(Mid(s, pos, tag.start) + o.text, -1).And(Eval(Scan(s, TagNext(s, tag, endPos), endPos), stack))
  {
    FoundTag(s, pos, endPos);
    if tag.kind == Null {
      EvalOne(Mid(s, pos, endPos), stack);
    } else {
      var n := TagNode(s, tag, endPos);
      EvalTwo(Mid(s, pos, tag.start), n, if n.Broken? then [] else Scan(s, TagNext(s, tag, endPos), endPos), stack);
    }
  }

  class Renderer {
    var error: string
    var errorPos: int

    constructor ()
      ensures errorPos == -1
    {
      error, errorPos := "", -1;
    }

    method SetError(message: string, pos: nat)
      modifies this
      ensures error == message && errorPos == pos
    {
      error, errorPos := message, pos;
    }

    /** findEndTag */
    method FindEndTag(content: string, startTag: Tag, endPos: nat) returns (t: Tag)
      requires Boundary(content, startTag.end)
      modifies this
      ensures var e := EndTag(content, startTag.end, 1, endPos);
              if e.kind != Null && e.key != startTag.key then t == NO_TAG && errorPos == e.start
              else t == e && errorPos == old(errorPos) && error == old(error)
    {
      var tagDepth, pos := 1, startTag.end;
      while true
        invariant Boundary(content, pos) && tagDepth > 0
        invariant EndTag(content, pos, tagDepth, endPos) == EndTag(content, startTag.end, 1, endPos)
        invariant errorPos == old(errorPos) && error == old(error)
        decreases |content| + 2 - pos
      {
        var nextTag := ScanTag(content, pos, endPos);
        EndTagUnfold(content, pos, tagDepth, endPos, nextTag);
        if nextTag.kind == Null {
          return nextTag;
        } else if nextTag.kind == SectionStart || nextTag.kind == InvertedSectionStart {
          tagDepth := tagDepth + 1;
        } else if nextTag.kind == SectionEnd {
          tagDepth := tagDepth - 1;
          if tagDepth == 0 {
            if nextTag.key != startTag.key {
              SetError("Tag start/end key mismatch", nextTag.start);
              return NO_TAG;
            }
            return nextTag;
          }
        }
        pos := nextTag.end;
      }
    }

    method DisplayValue(tag: Tag, context: Context) returns (value: string)
      ensures value == Display(StringOf(ValueOf(context.contextStack, tag.key)), tag.mode)
    {
      value := context.StringValue(tag.key);
      if tag.mode == Escape {
        value := EscapeHtml(value);
      } else if tag.mode == Unescape {
        value := UnescapeHtml(value);
      }
    }

    /** The body of a section, once for each item of a list. */
    method RenderSection(template: string, tag: Tag, endTag: Tag, context: Context) returns (output: string)
      requires Boundary(template, tag.end) && tag.end <= |template| + 1 && endTag.start <= |template|
      requires NoDelimiterTags(template, tag.end) && errorPos == -1
      modifies this, context
      ensures context.contextStack == old(context.contextStack)
      ensures Outcome(output, errorPos) ==
              EvalNode(Section(tag.key, false, Scan(template, tag.end, endTag.start)), context.contextStack)
      decreases |template| + 2 - tag.end, 3
    {
      output := "";
      var listCount := context.ListCount(tag.key);
      if listCount > 0 {
        output := RenderItems(template, tag, endTag, context, listCount);
      } else {
        var isFalse := context.IsFalseKey(tag.key);
        if !isFalse {
          context.Push(tag.key, -1);
          output := Render(template, tag.end, endTag.start, context);
          context.Pop();
        }
      }
    }

    method RenderItems(template: string, tag: Tag, endTag: Tag, context: Context, listCount: nat)
      returns (output: string)
      requires Boundary(template, tag.end) && tag.end <= |template| + 1 && endTag.start <= |template|
      requires NoDelimiterTags(template, tag.end) && errorPos == -1
      requires var v := ValueOf(context.contextStack, tag.key); v.List? && listCount == |v.items|
      modifies this, context
      ensures context.contextStack == old(context.contextStack)
      ensures Outcome(output, errorPos) ==
              EvalEach(Scan(template, tag.end, endTag.start), context.contextStack,
                       ValueOf(context.contextStack, tag.key).items)
      decreases |template| + 2 - tag.end, 2
    {
      ghost var stack, body := context.contextStack, Scan(template, tag.end, endTag.start);
      ghost var items := ValueOf(stack, tag.key).items;
      output := "";
      for i := 0 to listCount
        invariant context.contextStack == stack
        invariant Outcome(output, errorPos) == EvalEach(body, stack, items[..i])
      {
        context.Push(tag.key, i);
        assert items[..i + 1][..i] == items[..i];
        var text := Render(template, tag.end, endTag.start, context);
        output := output + text;
        context.Pop();
      }
      assert items[..listCount] == items;
    }

    method RenderInverted(template: string, tag: Tag, endTag: Tag, context: Context) returns (output: string)
      requires Boundary(template, tag.end) && tag.end <= |template| + 1 && endTag.start <= |template|
      requires NoDelimiterTags(template, tag.end) && errorPos == -1
      modifies this, context
      ensures context.contextStack == old(context.contextStack)
      ensures Outcome(output, errorPos) ==
              EvalNode(Section(tag.key, true, Scan(template, tag.end, endTag.start)), context.contextStack)
      decreases |template| + 2 - tag.end, 2
    {
      output := "";
      var isFalse := context.IsFalseKey(tag.key);
      if isFalse {
        output := Render(template, tag.end, endTag.start, context);
      }
    }

    /** The text of a tag or of the section it opens, and the position where rendering goes on unless there is
        an error. */
    method RenderTag(template: string, tag: Tag, endPos: nat, context: Context)
      returns (output: string, lastTagEnd: nat)
      requires tag.kind != Null && Boundary(template, tag.end) && 0 < tag.end <= |template| + 1
      requires errorPos == -1 && endPos <= |template| && NoDelimiterTags(template, tag.end)
      modifies this, context
      ensures context.contextStack == old(context.contextStack)
      ensures Outcome(output, errorPos) == EvalNode(TagNode(template, tag, endPos), context.contextStack)
      ensures errorPos == -1 ==> lastTagEnd == TagNext(template, tag, endPos)
      ensures errorPos == -1 ==> Boundary(template, lastTagEnd) && NoDelimiterTags(template, lastTagEnd)
      decreases |template| + 2 - tag.end, 4
    {
      output, lastTagEnd := "", tag.end;
      match tag.kind
      case Value =>
        output := DisplayValue(tag, context);
      case SectionStart =>
        var endTag := FindSectionEnd(template, tag, endPos, "No matching end tag found for section");
        if endTag.kind != Null {
          output := RenderSection(template, tag, endTag, context);
          lastTagEnd := endTag.end;
        }
      case InvertedSectionStart =>
        var endTag := FindSectionEnd(template, tag, endPos, "No matching end tag found for inverted section");
        if endTag.kind != Null {
          output := RenderInverted(template, tag, endTag, context);
          lastTagEnd := endTag.end;
        }
      case SectionEnd =>
        SetError("Unexpected end tag", tag.start);
      case _ =>
    }

    /** The tag that ends a section, or an error. */
    method FindSectionEnd(template: string, tag: Tag, endPos: nat, message: string) returns (endTag: Tag)
      requires Boundary(template, tag.end) && 0 < tag.end <= |template| + 1 && OpensSection(tag)
      requires errorPos == -1 && endPos <= |template| && NoDelimiterTags(template, tag.end)
      modifies this
      ensures var e := EndTag(template, tag.end, 1, endPos);
              if e.kind == Null then endTag.kind == Null && errorPos == tag.start
              else if e.key != tag.key then endTag.kind == Null && errorPos == e.start
              else endTag == e && errorPos == -1
      ensures endTag.kind != Null ==>
              Follows(template, tag.end, endPos, endTag) && NoDelimiterTags(template, endTag.end)
    {
      endTag := FindEndTag(template, tag, endPos);
      EndTagRange(template, tag.end, 1, endPos);
      EndTagKeepsMarkers(template, tag.end, 1, endPos);
      if endTag.kind == Null && errorPos == -1 {
        SetError(message, tag.start);
      }
    }

    /** One round of the render loop: the text before the next tag and the text of the tag. */
    method RenderNext(template: string, lastTagEnd: nat, endPos: nat, context: Context)
      returns (output: string, next: nat, last: bool)
      requires Boundary(template, lastTagEnd) && lastTagEnd <= |template| + 1 && endPos <= |template|
      requires errorPos == -1 && NoDelimiterTags(template, lastTagEnd)
      modifies this, context
      ensures context.contextStack == old(context.contextStack)
      ensures errorPos == -1 && !last ==>
                && lastTagEnd < next <= |template| + 1 && Boundary(template, next) && NoDelimiterTags(template, next)
                && Eval(Scan(template, lastTagEnd, endPos), context.contextStack) ==
                   Outcome(output, -1).And(Eval(Scan(template, next, endPos), context.contextStack))
      ensures errorPos != -1 || last ==>
                Eval(Scan(template, lastTagEnd, endPos), context.contextStack) == Outcome(output, errorPos)
      decreases |template| + 2 - lastTagEnd, 0
    {
      ghost var stack := context.contextStack;
      var tag := ScanTag(template, lastTagEnd, endPos);
      ScanStep(template, lastTagEnd, endPos, tag, stack);
      LimitedScan(template, lastTagEnd, endPos);
      if tag.kind == Null {
        return Mid(template, lastTagEnd, endPos), lastTagEnd, true;
      }
      var text;
      text, next := RenderTag(template, tag, endPos, context);
      assert EvalNode(TagNode(template, tag, endPos), stack) == Outcome(text, errorPos);
      output, last := Mid(template, lastTagEnd, tag.start) + text, false;
    }

    /** Render a stretch of a template: the output and the position of the error are those of the nodes of the
        scan.  The context stack is as it was.  After an error nothing is rendered. */
    method Render(template: string, startPos: nat, endPos: nat, context: Context) returns (output: string)
      requires Boundary(template, startPos) && startPos <= |template| + 1 && endPos <= |template|
      requires NoDelimiterTags(template, startPos)
      modifies this, context
      ensures context.contextStack == old(context.contextStack)
      ensures old(errorPos) == -1 ==>
                Outcome(output, errorPos) == Eval(Scan(template, startPos, endPos), context.contextStack)
      ensures old(errorPos) != -1 ==> output == "" && errorPos == old(errorPos)
      decreases |template| + 2 - startPos, 1
    {
      ghost var stack := context.contextStack;
      ghost var whole := Eval(Scan(template, startPos, endPos), stack);
      output := "";
      var lastTagEnd := startPos;
      while errorPos == -1
        invariant context.contextStack == stack
        invariant errorPos == -1 ==> startPos <= lastTagEnd <= |template| + 1 && Boundary(template, lastTagEnd)
        invariant errorPos == -1 ==> NoDelimiterTags(template, lastTagEnd)
        invariant errorPos == -1 ==> whole == Outcome(output, -1).And(Eval(Scan(template, lastTagEnd, endPos), stack))
        invariant errorPos != -1 && old(errorPos) == -1 ==> whole == Outcome(output, errorPos)
        invariant old(errorPos) != -1 ==> output == "" && errorPos == old(errorPos)
        decreases errorPos == -1, |template| + 2 - lastTagEnd
      {
        var text, next, last := RenderNext(template, lastTagEnd, endPos, context);
        if errorPos == -1 && !last {
          AndAssociates(Outcome(output, -1), Outcome(text, -1), Eval(Scan(template, next, endPos), stack));
        }
        output := output + text;
        if last {
          break;
        }
        lastTagEnd := next;
      }
    }

    /** Render a whole template.  If it is well formed there is no error, whatever the context is. */
    method RenderTemplate(template: string, context: Context) returns (output: string)
      requires NoDelimiterTags(template, 0)
      modifies this, context
      ensures context.contextStack == old(context.contextStack)
      ensures Outcome(output, errorPos) == Eval(Scan(template, 0, |template|), context.contextStack)
      ensures TemplateLaws.Safe(Scan(template, 0, |template|)) ==> TemplateLaws.NoMarkup(output)
      ensures WellFormed(template) ==>
                errorPos == -1 && output == Eval(Parse(template, 0).nodes, context.contextStack).text
    {
      error, errorPos := "", -1;
      output := Render(template, 0, |template|, context);
      ScanSoundIff(template);
      if TemplateLaws.Safe(Scan(template, 0, |template|)) {
        TemplateLaws.SafeEval(Scan(template, 0, |template|), context.contextStack);
      }
      if WellFormed(template) {
        SoundEval(Scan(template, 0, |template|), context.contextStack);
      }
    }
  }
}
