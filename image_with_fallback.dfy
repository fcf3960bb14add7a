/** An image that switches once to a fallback source when it fails to load. */
module ImageWithFallback {
  import opened Common

  const DefaultFallback := "/default-avatar.png"

  class Image {
    const src: string
    const fallbackSrc: string
    var currentSrc: string

    /** The source shown is one of the two sources. */
    ghost predicate Valid()
      reads this
    {
      currentSrc == src || currentSrc == fallbackSrc
    }

    /** `fallbackSrc` is `None` when the prop is not given. */
    constructor (src: string, fallbackSrc: Option<string>)
      ensures Valid()
      ensures this.src == src && currentSrc == src
      ensures this.fallbackSrc == if fallbackSrc.Some? then fallbackSrc.value else DefaultFallback
    {
      this.src := src;
      this.fallbackSrc := if fallbackSrc.Some? then fallbackSrc.value else DefaultFallback;
      currentSrc := src;
    }

    /** `onError`: show the fallback. Once it is shown, further errors change
        nothing. */
    method OnError()
      requires Valid()
      modifies this
      ensures Valid()
      ensures currentSrc == fallbackSrc
      ensures old(currentSrc) == fallbackSrc ==> currentSrc == old(currentSrc)
    {
      if currentSrc != fallbackSrc {
        currentSrc := fallbackSrc;
      }
    }
  }
}
