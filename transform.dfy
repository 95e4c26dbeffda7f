/**
 * Dispatch (`props2json`, index.js:196-205) and the per-file handler of the
 * plugin (index.js:225-260): the namespace check-and-rewrite every file goes
 * through, then, for a file with contents, rendering and renaming.
 */
module Transform {
  import opened Wrappers
  import opened Json
  import opened Identifier
  import opened Settings
  import opened JsonOutput
  import opened ScriptOutput
  import opened FileName

  /** The message of the error a reserved-word namespace raises. */
  const ReservedWordError: string := "namespace option cannot be a reserved word."

  /**
   * The namespace step every file goes through: a reserved word is refused,
   * any other namespace is replaced by its sanitized form, and no namespace
   * stays none.
   */
  function CheckNamespace(ns: string, isKeyword: string -> bool): (r: Result<string>)
    ensures r.Err? <==> ns != "" && isKeyword(ns)
    ensures r.Err? ==> r.msg == ReservedWordError
    ensures r.Ok? ==> IsValidIdentifier(r.value) && (r.value == "" <==> ns == "")
    ensures r.Ok? ==> (r.value == ns <==> IsValidIdentifier(ns))
  {
    if ns == "" then Ok(ns)
    else if isKeyword(ns) then Err(ReservedWordError)
    else Ok(GetValidIdentifier(ns))
  }

  /**
   * The options keep the sanitized namespace, and the next file checks it
   * again: unless the sanitized form is itself a reserved word, that second
   * check leaves it as it is.
   */
  lemma {:induction false} CheckNamespaceStable(ns: string, isKeyword: string -> bool)
    requires CheckNamespace(ns, isKeyword).Ok?
    requires !isKeyword(CheckNamespace(ns, isKeyword).value)
    ensures CheckNamespace(CheckNamespace(ns, isKeyword).value, isKeyword) == CheckNamespace(ns, isKeyword)
  {
    var r := CheckNamespace(ns, isKeyword).value;
    assert IsValidIdentifier(r);
  }

  /** What props2json renders, given the options as they stand before it runs. */
  function Rendered(props: seq<(string, string)>, outputType: string, ns: string, minify: bool, nestedProps: bool,
                    complexTypes: bool, space: int, delimiter: string, parse: string -> Option<Json>): Result<string> {
    if outputType == "json" then
      JsonText(props, nestedProps, complexTypes, delimiter, ns, PrettySpace(minify, space), parse)
    else if outputType == "js" then
      JsText(props, ns, minify, nestedProps, complexTypes, delimiter, parse)
    else Ok("")
  }

  /** The namespace the options hold after props2json: the script renderer stores its default. */
  function NamespaceAfter(outputType: string, ns: string): string {
    if outputType == "js" then ScriptNamespace(ns) else ns
  }

  /** The `space` the options hold after props2json: a JSON rendering that succeeds may set it to 2. */
  function SpaceAfter(outputType: string, rendered: Result<string>, minify: bool, space: int): int {
    if outputType == "json" && rendered.Ok? then PrettySpace(minify, space) else space
  }

  /**
   * props2json: renders JSON for the output type "json", a script for "js",
   * and nothing for any other type. The properties text goes through the
   * properties parser, which is a parameter of the model.
   */
  method Props2Json(text: string, options: Options, parseProps: string -> seq<(string, string)>,
                    parse: string -> Option<Json>)
    returns (r: Result<string>)
    modifies options`space, options`namespace
    ensures r == Rendered(parseProps(text), options.outputType, old(options.namespace), options.minify,
                          options.nestedProps, options.complexTypes, old(options.space),
                          options.nestingDelimiter, parse)
    ensures options.namespace == NamespaceAfter(options.outputType, old(options.namespace))
    ensures options.space == SpaceAfter(options.outputType, r, options.minify, old(options.space))
  {
    var props := parseProps(text);
    r := Ok("");
    if options.outputType == "json" {
      r := GetJsonOutput(options, props, parse);
    } else if options.outputType == "js" {
      r := GetJsOutput(options, props, parse);
    }
  }

  /** A file in the pipeline: its path and, unless it is a null file, its contents as text. */
  class File {
    var path: string
    var contents: Option<string>

    constructor (path: string, contents: Option<string>)
      ensures this.path == path && this.contents == contents
    {
      this.path := path;
      this.contents := contents;
    }
  }

  /**
   * The handler run for each file (buffer and null files). A reserved-word
   * namespace raises an error and the file is not passed on. Otherwise the
   * sanitized namespace is stored in the options, a null file is passed on
   * as it is, and a buffer file is rendered and renamed, or, when rendering
   * throws, reported and not passed on, with its contents and path untouched.
   */
  method TransformFile(options: Options, file: File, isKeyword: string -> bool,
                       parseProps: string -> seq<(string, string)>, parse: string -> Option<Json>)
    returns (pushed: bool, error: Option<string>)
    modifies options`namespace, options`space, file
    ensures var checked := CheckNamespace(old(options.namespace), isKeyword);
      checked.Err? ==>
        && !pushed && error == Some(ReservedWordError)
        && options.namespace == old(options.namespace) && options.space == old(options.space)
        && file.path == old(file.path) && file.contents == old(file.contents)
    ensures var checked := CheckNamespace(old(options.namespace), isKeyword);
      checked.Ok? && old(file.contents).None? ==>
        && pushed && error == None
        && options.namespace == checked.value && options.space == old(options.space)
        && file.path == old(file.path) && file.contents == old(file.contents)
    ensures var checked := CheckNamespace(old(options.namespace), isKeyword);
      checked.Ok? && old(file.contents).Some? ==>
        var r := Rendered(parseProps(old(file.contents).value), options.outputType, checked.value, options.minify,
                          options.nestedProps, options.complexTypes, old(options.space),
                          options.nestingDelimiter, parse);
        && options.namespace == NamespaceAfter(options.outputType, checked.value)
        && options.space == SpaceAfter(options.outputType, r, options.minify, old(options.space))
        && (r.Err? ==> !pushed && error == Some(r.msg)
                       && file.path == old(file.path) && file.contents == old(file.contents))
        && (r.Ok? ==> pushed && error == None && file.contents == Some(r.value)
                      && file.path == OutputFilename(old(file.path), options.outputType, options.appendExt))
  {
    if options.namespace != "" {
      if isKeyword(options.namespace) {
        return false, Some(ReservedWordError);
      }
      options.namespace := GetValidIdentifier(options.namespace);
    }
    if file.contents.Some? {
      var r := Props2Json(file.contents.value, options, parseProps, parse);
      if r.Err? {
        return false, Some(r.msg);
      }
      file.contents := Some(r.value);
      file.path := OutputFilename(file.path, options.outputType, options.appendExt);
    }
    pushed, error := true, None;
  }
}
