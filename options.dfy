/**
 * The plugin's options object (index.js:211-223). One object is shared by
 * every file the plugin transforms, and the renderers write two of its
 * fields (`space` and `namespace`), so it is a class.
 */
module Settings {
  import opened Wrappers

  /** The value given by the caller, or the default when none was given. */
  function Given<T>(o: Option<T>, default: T): T {
    match o
    case Some(v) => v
    case None => default
  }

  class Options {
    /** "json" or "js"; any other value renders nothing. */
    var outputType: string
    /** The script namespace and the JSON wrapper key; "" stands for null (both are falsy at every use). */
    var namespace: string
    var minify: bool
    var complexTypes: bool
    var nestedProps: bool
    /** JSON.stringify's indentation; only its numeric form is modelled. */
    var space: int
    var nestingDelimiter: string
    var appendExt: bool

    /** `extend(defaults, options)`: every option the caller gives replaces its default. */
    constructor (outputType: Option<string>, namespace: Option<string>, minify: Option<bool>,
                 complexTypes: Option<bool>, nestedProps: Option<bool>, space: Option<int>,
                 nestingDelimiter: Option<string>, appendExt: Option<bool>)
      ensures this.outputType == Given(outputType, "json")
      ensures this.namespace == Given(namespace, "")
      ensures this.minify == Given(minify, true)
      ensures this.complexTypes == Given(complexTypes, false)
      ensures this.nestedProps == Given(nestedProps, false)
      ensures this.space == Given(space, 0)
      ensures this.nestingDelimiter == Given(nestingDelimiter, ".")
      ensures this.appendExt == Given(appendExt, false)
    {
      this.outputType := Given(outputType, "json");
      this.namespace := Given(namespace, "");
      this.minify := Given(minify, true);
      this.complexTypes := Given(complexTypes, false);
      this.nestedProps := Given(nestedProps, false);
      this.space := Given(space, 0);
      this.nestingDelimiter := Given(nestingDelimiter, ".");
      this.appendExt := Given(appendExt, false);
    }
  }
}
